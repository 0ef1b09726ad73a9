/** The polling loop of extension/tgbot/main.go: `pollUpdates` keeps an
    `offset` cursor into the bot's update queue, turns every update into at most
    one dispatch, and `retryPollUpdates` backs off exponentially when fetching
    fails.

    The network is replaced by a `World` of oracles.  `getUpdates`, the title
    lookup of `getTitle` and the POST of `sendPOSTRequest` each return the
    outcome the world holds for that call, counted from the start of the run.
    Sleeps are recorded as durations in seconds, and the end of the process
    is a `Status`. */
module PollLoop {
  import opened Wrappers
  import opened Text
  import opened Extractor
  import opened TitleSearch
  import opened Dispatcher

  /** How many times `retryPollUpdates` calls `getUpdates` again. */
  const MaxRetries: nat := 5

  /** One update of the Bot API; `message` and `channelPost` are the two
      optional pointers, of which the bot reads only the text. */
  datatype Update = Update(id: int, message: Option<string>, channelPost: Option<string>)

  /** The text the bot reads from an update: the message text, else the
      channel post text, else "". */
  function TextOf(u: Update): string {
    if u.message.Some? then u.message.value
    else if u.channelPost.Some? then u.channelPost.value
    else ""
  }

  /** What one update asks of the bot: its ID, and the URL and tags
      `parseURLAndTags` finds in its text. */
  datatype Job = Job(id: int, url: string, tags: seq<string>)

  function JobOf(u: Update): Job {
    var e := Extract(TextOf(u));
    Job(u.id, e.url, e.tags)
  }

  function Jobs(ups: seq<Update>): seq<Job> {
    seq(|ups|, i requires 0 <= i < |ups| => JobOf(ups[i]))
  }

  datatype FetchOutcome = Fetched(updates: seq<Update>) | FetchFailed
  datatype PageOutcome = PageFailed | Page(doc: Node)
  datatype PostOutcome = PostOk | PostFailed

  /** The answers of the outside world: `fetch(n, o)` to the n-th
      `getUpdates` call, made at offset `o`; `title(n)` to the n-th `getTitle`
      call, which asks it only for a non-empty URL; `post(n)` to the n-th
      dispatch. */
  datatype World = World(fetch: (nat, int) -> FetchOutcome, title: nat -> Search, post: nat -> PostOutcome)

  /** What `getTitle` finds on a fetched page: "" when the page cannot be
      fetched or parsed, otherwise the trimmed result of the search. */
  function PageTitle(p: PageOutcome): Search {
    match p
    case PageFailed => Found("")
    case Page(doc) => GetTitle(doc)
  }

  /** The world's titles are those `getTitle` finds on the pages `pages`. */
  ghost predicate FromPages(w: World, pages: nat -> PageOutcome) {
    forall n: nat :: w.title(n) == PageTitle(pages(n))
  }

  /** A dispatch that was sent, with what the POST reported. */
  datatype Sent = Sent(dispatch: Dispatch, result: PostOutcome)

  /** What the bot does that takes time, in the order it does it: a
      `getUpdates` call at an offset, or a sleep of some seconds. */
  datatype Event = Call(offset: int) | Sleep(seconds: nat)

  /** Whether the loop goes on, has returned on shutdown, or has ended the
      process with an exit code. */
  datatype Status = Polling | Stopped | Exited(code: int)

  /** Everything the bot has done so far: its cursor, the offsets it passed to
      `getUpdates`, the URLs it passed to `getTitle`, the dispatches it sent,
      the sleeps it took, the calls and sleeps interleaved in the order they
      happened, and whether it still runs. */
  datatype Trace = Trace(offset: int, requested: seq<int>, lookups: seq<string>,
                         sent: seq<Sent>, sleeps: seq<nat>, events: seq<Event>, status: Status)

  /** `getTitle(url)` as the `l`-th call: "" for the empty URL, which
      net/http refuses before any request, otherwise the world's answer. */
  function TitleFor(w: World, url: string, l: nat): Search {
    if url == "" then Found("") else w.title(l)
  }

  /** The text of a search result that did not panic. */
  function TitleText(s: Search): string {
    if s.Found? then s.text else ""
  }

  /** The body of the `for _, update := range updates` loop on one job: the
      cursor moves past the update first, the title is looked up, and a
      dispatch goes out when there is a URL. */
  function Step(w: World, t: Trace, j: Job): Trace {
    var title := TitleFor(w, j.url, |t.lookups|);
    var t1 := t.(offset := j.id + 1, lookups := t.lookups + [j.url]);
    if title.NilDeref? then t1.(status := Exited(2))
    else if j.url == "" then t1
    else t1.(sent := t.sent + [Sent(MakeDispatch(j.url, j.tags, title.text), w.post(|t.sent|))])
  }

  /** The loop over a fetched batch, stopping if the process ends. */
  function HandleAll(w: World, t: Trace, js: seq<Job>): Trace
    decreases |js|
  {
    if js == [] then t
    else
      var h := HandleAll(w, t, js[..|js| - 1]);
      if h.status == Polling then Step(w, h, js[|js| - 1]) else h
  }

  /** 2 to the power `i`: the `1<<i` of the back-off. */
  function Pow2(i: nat): (p: nat)
    ensures p >= 1
  {
    if i == 0 then 1 else 2 * Pow2(i - 1)
  }

  /** `retryPollUpdates` from attempt `i` on: sleep `1<<i` seconds, call
      `getUpdates` at the unchanged cursor, return on success and discard the
      updates; after the last attempt the process exits with status 1. */
  function Retry(w: World, t: Trace, i: nat): Trace
    decreases MaxRetries - i
  {
    if i >= MaxRetries then t.(status := Exited(1))
    else
      var t1 := t.(sleeps := t.sleeps + [Pow2(i)], requested := t.requested + [t.offset],
                   events := t.events + [Sleep(Pow2(i)), Call(t.offset)]);
      if w.fetch(|t.requested|, t.offset).Fetched? then t1 else Retry(w, t1, i + 1)
  }

  /** One iteration of the `for` loop of `pollUpdates` after the shutdown
      check: fetch, then retry or handle the batch, then sleep one second. */
  function Round(w: World, t: Trace): Trace {
    var t1 := t.(requested := t.requested + [t.offset], events := t.events + [Call(t.offset)]);
    var t2 := match w.fetch(|t.requested|, t.offset)
      case FetchFailed => Retry(w, t1, 0)
      case Fetched(ups) => HandleAll(w, t1, Jobs(ups));
    if t2.status == Polling then t2.(sleeps := t2.sleeps + [1], events := t2.events + [Sleep(1)]) else t2
  }

  /** `pollUpdates` when the shutdown signal is seen at the top of iteration
      `rounds`. */
  function Run(w: World, t: Trace, rounds: nat): Trace
    decreases rounds
  {
    if t.status != Polling then t
    else if rounds == 0 then t.(status := Stopped)
    else Run(w, Round(w, t), rounds - 1)
  }

  // ---------------------------------------------------------------------
  // The bot as the source runs it.

  class Poller {
    const world: World
    var offset: int
    var requested: seq<int>
    var lookups: seq<string>
    var sent: seq<Sent>
    var sleeps: seq<nat>
    var events: seq<Event>
    var status: Status

    function Snapshot(): Trace
      reads this
    {
      Trace(offset, requested, lookups, sent, sleeps, events, status)
    }

    /** The state `pollUpdates` starts in: `offset := 0`, nothing done yet. */
    constructor (w: World)
      ensures world == w
      ensures Snapshot() == Trace(0, [], [], [], [], [], Polling)
    {
      world := w;
      offset := 0;
      requested, lookups, sent, sleeps, events := [], [], [], [], [];
      status := Polling;
    }

    /** `getUpdates(at)`: the answer of the world to the next call. */
    method GetUpdates(at: int) returns (r: FetchOutcome)
      modifies this`requested, this`events
      ensures requested == old(requested) + [at] && events == old(events) + [Call(at)]
      ensures r == world.fetch(|old(requested)|, at)
    {
      r := world.fetch(|requested|, at);
      requested := requested + [at];
      events := events + [Call(at)];
    }

    /** `time.Sleep`: the duration is recorded, in seconds. */
    method Sleep(seconds: nat)
      modifies this`sleeps, this`events
      ensures sleeps == old(sleeps) + [seconds] && events == old(events) + [Event.Sleep(seconds)]
    {
      sleeps := sleeps + [seconds];
      events := events + [Event.Sleep(seconds)];
    }

    /** `getTitle(url)`: one title lookup. */
    method GetTitleOf(url: string) returns (r: Search)
      modifies this`lookups
      ensures lookups == old(lookups) + [url]
      ensures r == TitleFor(world, url, |old(lookups)|)
    {
      r := TitleFor(world, url, |lookups|);
      lookups := lookups + [url];
    }

    /** `sendPOSTRequest(url, tags, title)`: one dispatch, logged with the
        outcome the world reports; the outcome changes nothing else. */
    method SendPOSTRequest(url: string, tags: seq<string>, title: string)
      modifies this`sent
      ensures sent == old(sent) + [Sent(MakeDispatch(url, tags, title), world.post(|old(sent)|))]
    {
      var d := MakeDispatch(url, tags, title);
      sent := sent + [Sent(d, world.post(|sent|))];
    }

    /** The body of the `for _, update := range updates` loop. */
    method HandleUpdate(update: Update)
      modifies this`offset, this`lookups, this`sent, this`status
      ensures Snapshot() == Step(world, old(Snapshot()), JobOf(update))
    {
      offset := update.id + 1;
      var text := TextOf(update);
      var url, tags := ParseURLAndTags(text);
      var title := GetTitleOf(url);
      if title.NilDeref? {
        status := Exited(2);
      } else if url != "" {
        SendPOSTRequest(url, tags, title.text);
      }
    }

    /** The loop over one fetched batch inside `pollUpdates`. */
    method HandleUpdates(ups: seq<Update>)
      requires status == Polling
      modifies this`offset, this`lookups, this`sent, this`status
      ensures Snapshot() == HandleAll(world, old(Snapshot()), Jobs(ups))
    {
      ghost var t0 := Snapshot();
      ghost var js := Jobs(ups);
      var i := 0;
      while i < |ups|
        invariant 0 <= i <= |ups|
        invariant status == Polling
        invariant Snapshot() == HandleAll(world, t0, js[..i])
      {
        HandleAllNext(world, t0, js, i);
        HandleUpdate(ups[i]);
        if status != Polling {
          HandleAllStops(world, t0, js, i + 1);
          return;
        }
        i := i + 1;
      }
      assert js[..|ups|] == js;
    }

    /** `retryPollUpdates(&offset)`. */
    method RetryPollUpdates()
      requires status == Polling
      modifies this`requested, this`sleeps, this`events, this`status
      ensures Snapshot() == Retry(world, old(Snapshot()), 0)
    {
      ghost var t0 := Snapshot();
      var i := 0;
      while i < MaxRetries
        invariant 0 <= i <= MaxRetries
        invariant status == Polling
        invariant Retry(world, Snapshot(), i) == Retry(world, t0, 0)
      {
        ghost var before := Snapshot();
        Sleep(Pow2(i));
        var r := GetUpdates(offset);
        assert Snapshot() == before.(sleeps := before.sleeps + [Pow2(i)], requested := before.requested + [before.offset],
                                     events := before.events + [Event.Sleep(Pow2(i)), Call(before.offset)]);
        if r.Fetched? {
          return;
        }
        i := i + 1;
      }
      status := Exited(1);
    }

    /** One iteration of the `for` loop of `pollUpdates` after the shutdown
        check. */
    method PollRound()
      requires status == Polling
      modifies this`offset, this`requested, this`lookups, this`sent, this`sleeps, this`events, this`status
      ensures Snapshot() == Round(world, old(Snapshot()))
    {
      ghost var before := Snapshot();
      var r := GetUpdates(offset);
      assert Snapshot() == before.(requested := before.requested + [before.offset], events := before.events + [Call(before.offset)]);
      match r {
        case FetchFailed => RetryPollUpdates();
        case Fetched(ups) => HandleUpdates(ups);
      }
      if status == Polling {
        Sleep(1);
      }
    }

    /** `pollUpdates`, with the shutdown signal seen at the top of iteration
        `rounds`. */
    method PollUpdates(rounds: nat)
      requires status == Polling
      modifies this`offset, this`requested, this`lookups, this`sent, this`sleeps, this`events, this`status
      ensures Snapshot() == Run(world, old(Snapshot()), rounds)
    {
      ghost var t0 := Snapshot();
      var k := 0;
      while k < rounds && status == Polling
        invariant 0 <= k <= rounds
        invariant Run(world, Snapshot(), rounds - k) == Run(world, t0, rounds)
        decreases rounds - k
      {
        PollRound();
        k := k + 1;
      }
      if status == Polling {
        status := Stopped;
      }
    }
  }

  /** One more job of the batch is one more `Step`. */
  lemma HandleAllNext(w: World, t: Trace, js: seq<Job>, i: nat)
    requires i < |js| && HandleAll(w, t, js[..i]).status == Polling
    ensures HandleAll(w, t, js[..i + 1]) == Step(w, HandleAll(w, t, js[..i]), js[i])
  {
    assert js[..i + 1][..i] == js[..i];
  }

  /** Once the process has ended inside a batch, the rest of the batch is not
      handled. */
  lemma {:induction false} HandleAllStops(w: World, t: Trace, js: seq<Job>, i: nat)
    requires i <= |js| && HandleAll(w, t, js[..i]).status != Polling
    ensures HandleAll(w, t, js) == HandleAll(w, t, js[..i])
    decreases |js| - i
  {
    if i < |js| {
      assert js[..i + 1][..i] == js[..i];
      HandleAllStops(w, t, js, i + 1);
    } else {
      assert js[..i] == js;
    }
  }
}
