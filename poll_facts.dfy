/** What the polling loop of extension/tgbot/main.go guarantees: how the
    cursor moves, which updates are dispatched, the back-off schedule, and
    the invariants of a whole run. */
module PollFacts {
  import opened Text
  import opened Extractor
  import opened TitleSearch
  import opened Dispatcher
  import opened PollLoop

  // ---------------------------------------------------------------------
  // One batch.

  /** The URL of each job, in batch order. */
  function Urls(js: seq<Job>): seq<string> {
    seq(|js|, i requires 0 <= i < |js| => js[i].url)
  }

  /** Handling a batch fetches and sleeps nothing.  Unless the process ends, it
      looks up a title for every update, in batch order, and leaves the cursor
      one past the last update's ID, or where it was for an empty batch,
      whatever the POSTs report; if the process ends, it ends with status 2. */
  lemma {:induction false} HandleAllEffect(w: World, t: Trace, js: seq<Job>)
    requires t.status == Polling
    ensures var r := HandleAll(w, t, js);
      r.requested == t.requested && r.sleeps == t.sleeps && r.events == t.events
      && (r.status == Polling || r.status == Exited(2))
      && (r.status == Polling ==>
            r.lookups == t.lookups + Urls(js)
            && r.offset == if js == [] then t.offset else js[|js| - 1].id + 1)
    decreases |js|
  {
    if js != [] {
      var n := |js|;
      var pre := js[..n - 1];
      HandleAllEffect(w, t, pre);
      var h := HandleAll(w, t, pre);
      if h.status == Polling {
        assert Urls(js) == Urls(pre) + [js[n - 1].url];
      }
    }
  }

  /** The positions in a batch of the jobs with a URL, in batch order. */
  function LinkPositions(js: seq<Job>): seq<nat>
    decreases |js|
  {
    if js == [] then []
    else LinkPositions(js[..|js| - 1]) + if js[|js| - 1].url != "" then [|js| - 1] else []
  }

  /** `LinkPositions` lists every position of a job with a URL, each once,
      in increasing order, and no other position. */
  lemma LinkPositionsSpec(js: seq<Job>)
    ensures var p := LinkPositions(js);
      (forall k :: 0 <= k < |p| ==> p[k] < |js| && js[p[k]].url != "")
      && (forall k, l :: 0 <= k < l < |p| ==> p[k] < p[l])
      && (forall i :: 0 <= i < |js| && js[i].url != "" ==> i in p)
  {
    LinkPositionsInBatch(js);
    LinkPositionsIncreasing(js);
    LinkPositionsComplete(js);
  }

  /** Every listed position holds a job with a URL. */
  lemma {:induction false} LinkPositionsInBatch(js: seq<Job>)
    ensures var p := LinkPositions(js); forall k :: 0 <= k < |p| ==> p[k] < |js| && js[p[k]].url != ""
    decreases |js|
  {
    if js != [] {
      var n := |js|;
      var pre := js[..n - 1];
      LinkPositionsInBatch(pre);
      assert var q := LinkPositions(pre); forall k :: 0 <= k < |q| ==> q[k] < |pre| && pre[q[k]].url != "";
      var p0, p := LinkPositions(pre), LinkPositions(js);
      var last := if js[n - 1].url != "" then [n - 1] else [];
      assert p == p0 + last;
      forall k | 0 <= k < |p| ensures p[k] < n && js[p[k]].url != "" {
        if k < |p0| {
          assert p[k] == p0[k] && js[p0[k]] == pre[p0[k]];
        }
      }
    }
  }

  /** The positions are listed in strictly increasing order. */
  lemma {:induction false} LinkPositionsIncreasing(js: seq<Job>)
    ensures var p := LinkPositions(js); forall k, l :: 0 <= k < l < |p| ==> p[k] < p[l]
    decreases |js|
  {
    if js != [] {
      var n := |js|;
      var pre := js[..n - 1];
      LinkPositionsIncreasing(pre);
      LinkPositionsInBatch(pre);
      assert var q := LinkPositions(pre); forall k :: 0 <= k < |q| ==> q[k] < |pre|;
      assert var q := LinkPositions(pre); forall k, l :: 0 <= k < l < |q| ==> q[k] < q[l];
      var p0, p := LinkPositions(pre), LinkPositions(js);
      var last := if js[n - 1].url != "" then [n - 1] else [];
      assert p == p0 + last;
      forall k, l | 0 <= k < l < |p| ensures p[k] < p[l] {
        if l < |p0| {
          assert p[k] == p0[k] && p[l] == p0[l];
        } else {
          assert p[k] == p0[k] && p[l] == n - 1;
        }
      }
    }
  }

  /** Every position of a job with a URL is listed. */
  lemma {:induction false} LinkPositionsComplete(js: seq<Job>)
    ensures var p := LinkPositions(js); forall i :: 0 <= i < |js| && js[i].url != "" ==> i in p
    decreases |js|
  {
    if js != [] {
      var n := |js|;
      var pre := js[..n - 1];
      LinkPositionsComplete(pre);
      var p0, p := LinkPositions(pre), LinkPositions(js);
      var last := if js[n - 1].url != "" then [n - 1] else [];
      assert p == p0 + last;
      forall i | 0 <= i < n && js[i].url != "" ensures i in p {
        if i < n - 1 {
          assert pre[i] == js[i];
          var k :| 0 <= k < |p0| && p0[k] == i;
          assert p[k] == i;
        } else {
          assert p[|p| - 1] == i;
        }
      }
    }
  }

  /** The dispatch for a job whose title lookup is the `l`-th. */
  function DispatchFor(w: World, j: Job, l: nat): Dispatch {
    MakeDispatch(j.url, j.tags, TitleText(TitleFor(w, j.url, l)))
  }

  /** `sent`, past its first `s0` entries, holds the dispatches of the jobs
      at positions `p`, in that order, with the outcomes of POSTs `s0`, `s0 + 1`, ... */
  ghost predicate SentMatches(w: World, js: seq<Job>, p: seq<nat>, sent: seq<Sent>, s0: nat, l0: nat) {
    |sent| == s0 + |p|
    && forall k :: 0 <= k < |p| ==>
         p[k] < |js| && sent[s0 + k] == Sent(DispatchFor(w, js[p[k]], l0 + p[k]), w.post(s0 + k))
  }

  lemma SentMatchesGrow(w: World, js: seq<Job>, p: seq<nat>, sent: seq<Sent>, s0: nat, l0: nat)
    requires js != [] && SentMatches(w, js[..|js| - 1], p, sent, s0, l0)
    ensures SentMatches(w, js, p, sent, s0, l0)
  {
    var pre := js[..|js| - 1];
    forall k | 0 <= k < |p|
      ensures p[k] < |js| && sent[s0 + k] == Sent(DispatchFor(w, js[p[k]], l0 + p[k]), w.post(s0 + k))
    {
      assert js[p[k]] == pre[p[k]];
    }
  }

  /** Unless the process ends, handling a batch sends exactly one dispatch for
      each update that yields a URL, in batch order and for no other update:
      the k-th new dispatch belongs to the k-th such update and carries its
      URL, its tags and its looked-up title, and it is logged with the outcome
      of the k-th new POST.  Earlier dispatches stay as they were. */
  lemma {:induction false} HandleAllSent(w: World, t: Trace, js: seq<Job>)
    requires t.status == Polling && HandleAll(w, t, js).status == Polling
    ensures var r := HandleAll(w, t, js);
      SentMatches(w, js, LinkPositions(js), r.sent, |t.sent|, |t.lookups|) && r.sent[..|t.sent|] == t.sent
    decreases |js|
  {
    if js != [] {
      var pre := js[..|js| - 1];
      assert HandleAll(w, t, pre).status == Polling;
      HandleAllSent(w, t, pre);
      HandleAllLookupCount(w, t, pre);
      SentStep(w, t, js);
    } else {
      assert t.sent[..|t.sent|] == t.sent;
    }
  }

  /** Unless the process ends, every update of a batch is one title lookup. */
  lemma {:induction false} HandleAllLookupCount(w: World, t: Trace, js: seq<Job>)
    requires t.status == Polling
    ensures var r := HandleAll(w, t, js); r.status == Polling ==> |r.lookups| == |t.lookups| + |js|
    decreases |js|
  {
    if js != [] {
      HandleAllLookupCount(w, t, js[..|js| - 1]);
    }
  }

  /** The inductive step of `HandleAllSent`: the last job of the batch. */
  lemma SentStep(w: World, t: Trace, js: seq<Job>)
    requires js != [] && HandleAll(w, t, js).status == Polling
    requires var pre := js[..|js| - 1]; var h := HandleAll(w, t, pre);
      h.status == Polling && |h.lookups| == |t.lookups| + |pre|
      && SentMatches(w, pre, LinkPositions(pre), h.sent, |t.sent|, |t.lookups|) && h.sent[..|t.sent|] == t.sent
    ensures var r := HandleAll(w, t, js);
      SentMatches(w, js, LinkPositions(js), r.sent, |t.sent|, |t.lookups|) && r.sent[..|t.sent|] == t.sent
  {
    var n, s0, l0 := |js|, |t.sent|, |t.lookups|;
    var pre := js[..n - 1];
    var h := HandleAll(w, t, pre);
    SentMatchesGrow(w, js, LinkPositions(pre), h.sent, s0, l0);
    if js[n - 1].url == "" {
      SentStepNoLink(w, t, js, h);
    } else {
      assert HandleAll(w, t, js) == Step(w, h, js[n - 1]);
      StepSends(w, h, js[n - 1]);
      SentStepLink(w, js, h.sent, HandleAll(w, t, js).sent, s0, l0);
    }
  }

  lemma SentStepNoLink(w: World, t: Trace, js: seq<Job>, h: Trace)
    requires js != [] && js[|js| - 1].url == "" && h == HandleAll(w, t, js[..|js| - 1]) && h.status == Polling
    requires SentMatches(w, js, LinkPositions(js[..|js| - 1]), h.sent, |t.sent|, |t.lookups|) && h.sent[..|t.sent|] == t.sent
    ensures var r := HandleAll(w, t, js);
      SentMatches(w, js, LinkPositions(js), r.sent, |t.sent|, |t.lookups|) && r.sent[..|t.sent|] == t.sent
  {
    var pre := js[..|js| - 1];
    assert LinkPositions(js) == LinkPositions(pre);
    assert HandleAll(w, t, js) == Step(w, h, js[|js| - 1]);
    assert HandleAll(w, t, js).sent == h.sent;
  }

  lemma {:induction false} SentStepLink(w: World, js: seq<Job>, hs: seq<Sent>, rs: seq<Sent>, s0: nat, l0: nat)
    requires js != [] && js[|js| - 1].url != ""
    requires SentMatches(w, js, LinkPositions(js[..|js| - 1]), hs, s0, l0)
    requires rs == hs + [Sent(DispatchFor(w, js[|js| - 1], l0 + (|js| - 1)), w.post(|hs|))]
    ensures SentMatches(w, js, LinkPositions(js), rs, s0, l0) && rs[..s0] == hs[..s0]
  {
    var n := |js|;
    LinkPositionsLast(js);
    SentMatchesAppend(w, js, LinkPositions(js[..n - 1]), hs, s0, l0, n - 1, LinkPositions(js), rs);
  }

  lemma SentMatchesAppend(w: World, js: seq<Job>, p: seq<nat>, sent: seq<Sent>, s0: nat, l0: nat,
                          i: nat, p1: seq<nat>, sent1: seq<Sent>)
    requires SentMatches(w, js, p, sent, s0, l0) && i < |js|
    requires p1 == p + [i] && sent1 == sent + [Sent(DispatchFor(w, js[i], l0 + i), w.post(|sent|))]
    ensures SentMatches(w, js, p1, sent1, s0, l0) && sent1[..s0] == sent[..s0]
  {
  }

  /** A last job with a URL is the last position with a URL. */
  lemma LinkPositionsLast(js: seq<Job>)
    requires js != [] && js[|js| - 1].url != ""
    ensures LinkPositions(js) == LinkPositions(js[..|js| - 1]) + [|js| - 1]
  {
  }

  /** One job with a URL whose title lookup does not panic appends its
      dispatch to the log and nothing else. */
  lemma StepSends(w: World, h: Trace, j: Job)
    requires h.status == Polling && j.url != "" && Step(w, h, j).status == Polling
    ensures Step(w, h, j).sent == h.sent + [Sent(DispatchFor(w, j, |h.lookups|), w.post(|h.sent|))]
  {
  }

  /** No title lookup of the jobs `js`, the first being the `l0`-th, panics. */
  predicate AllFound(w: World, js: seq<Job>, l0: nat) {
    forall i :: 0 <= i < |js| ==> TitleFor(w, js[i].url, l0 + i).Found?
  }

  lemma AllFoundLast(w: World, js: seq<Job>, l0: nat)
    requires js != []
    ensures AllFound(w, js, l0)
            <==> AllFound(w, js[..|js| - 1], l0) && TitleFor(w, js[|js| - 1].url, l0 + (|js| - 1)).Found?
  {
    var pre := js[..|js| - 1];
    assert forall i :: 0 <= i < |pre| ==> js[i] == pre[i];
  }

  /** The process ends inside a batch exactly when some title lookup of the
      batch panics on a `title` element without children. */
  lemma {:induction false} HandleAllPanics(w: World, t: Trace, js: seq<Job>)
    requires t.status == Polling
    ensures HandleAll(w, t, js).status == Polling <==> AllFound(w, js, |t.lookups|)
    decreases |js|
  {
    if js != [] {
      var n := |js|;
      var pre := js[..n - 1];
      HandleAllPanics(w, t, pre);
      HandleAllLookupCount(w, t, pre);
      AllFoundLast(w, js, |t.lookups|);
      var h := HandleAll(w, t, pre);
      if h.status == Polling {
        assert HandleAll(w, t, js) == Step(w, h, js[n - 1]);
      } else {
        assert HandleAll(w, t, js) == h;
      }
    }
  }

  // ---------------------------------------------------------------------
  // Back-off.

  /** The sleeps of attempts `i`, `i + 1`, ..., `i + m - 1` of the back-off. */
  function Backoff(i: nat, m: nat): (b: seq<nat>)
    ensures |b| == m
    decreases m
  {
    if m == 0 then [] else [Pow2(i)] + Backoff(i + 1, m - 1)
  }

  /** `m` copies of `x`. */
  function Repeat(x: int, m: nat): (s: seq<int>)
    ensures |s| == m && forall k :: 0 <= k < m ==> s[k] == x
  {
    if m == 0 then [] else [x] + Repeat(x, m - 1)
  }

  /** The events of attempts `i`, ..., `i + m - 1` of the back-off at offset
      `o`: each attempt sleeps its `1<<i` seconds, then calls `getUpdates`. */
  function BackoffEvents(i: nat, m: nat, o: int): (e: seq<Event>)
    ensures |e| == 2 * m
    decreases m
  {
    if m == 0 then [] else [Sleep(Pow2(i)), Call(o)] + BackoffEvents(i + 1, m - 1, o)
  }

  /** Attempt `i + k` of the back-off sleeps `1<<(i+k)` seconds and only then
      makes its call. */
  lemma {:induction false} BackoffEventsAt(i: nat, m: nat, o: int, k: nat)
    requires k < m
    ensures BackoffEvents(i, m, o)[2 * k] == Sleep(Pow2(i + k))
    ensures BackoffEvents(i, m, o)[2 * k + 1] == Call(o)
    decreases m
  {
    if k > 0 {
      BackoffEventsAt(i + 1, m - 1, o, k - 1);
    }
  }

  /** A full back-off at offset `o`: sleep 1 s, call, sleep 2 s, call, ...,
      sleep 16 s, call. */
  lemma BackoffEventsSchedule(o: int)
    ensures BackoffEvents(0, MaxRetries, o)
            == [Sleep(1), Call(o), Sleep(2), Call(o), Sleep(4), Call(o), Sleep(8), Call(o), Sleep(16), Call(o)]
  {
    assert Pow2(1) == 2 && Pow2(2) == 4 && Pow2(3) == 8 && Pow2(4) == 16;
  }

  /** The five sleeps of a full back-off are 1, 2, 4, 8 and 16 seconds. */
  lemma BackoffSchedule()
    ensures Backoff(0, MaxRetries) == [1, 2, 4, 8, 16]
  {
    assert Pow2(1) == 2 && Pow2(2) == 4 && Pow2(3) == 8 && Pow2(4) == 16;
  }

  /** The `k`-th sleep of the back-off from attempt `i` is `1<<(i+k)` seconds. */
  lemma {:induction false} BackoffDoubles(i: nat, m: nat, k: nat)
    requires k < m
    ensures Backoff(i, m)[k] == Pow2(i + k)
    decreases m
  {
    if k > 0 {
      BackoffDoubles(i + 1, m - 1, k - 1);
    }
  }

  /** Retrying never moves the cursor, looks up a title or sends anything: the
      updates of the successful call are thrown away and fetched again by the
      next round.  The status is the one it had unless the retries run out. */
  lemma {:induction false} RetryKeepsCursor(w: World, t: Trace, i: nat)
    ensures var r := Retry(w, t, i);
      r.offset == t.offset && r.lookups == t.lookups && r.sent == t.sent
      && (r.status == t.status || r.status == Exited(1))
    decreases MaxRetries - i
  {
    if i < MaxRetries {
      var t1 := t.(sleeps := t.sleeps + [Pow2(i)], requested := t.requested + [t.offset],
                   events := t.events + [Sleep(Pow2(i)), Call(t.offset)]);
      if !w.fetch(|t.requested|, t.offset).Fetched? {
        RetryKeepsCursor(w, t1, i + 1);
      }
    }
  }

  /** From attempt `i` on, every `getUpdates` call is made at the unchanged
      cursor right after a sleep of `1<<i`, `1<<(i+1)`, ... seconds, and at
      most `MaxRetries - i` calls are made. */
  lemma {:induction false} RetryCalls(w: World, t: Trace, i: nat)
    requires i <= MaxRetries
    ensures CallsFrom(t, Retry(w, t, i), i, MaxRetries - i)
    decreases MaxRetries - i
  {
    if i < MaxRetries {
      var t1 := t.(sleeps := t.sleeps + [Pow2(i)], requested := t.requested + [t.offset],
                   events := t.events + [Sleep(Pow2(i)), Call(t.offset)]);
      if w.fetch(|t.requested|, t.offset).Fetched? {
        assert Retry(w, t, i) == t1;
        assert Repeat(t.offset, 1) == [t.offset];
        assert Backoff(i, 1) == [Pow2(i)];
        assert BackoffEvents(i, 1, t.offset) == [Sleep(Pow2(i)), Call(t.offset)];
      } else {
        RetryCalls(w, t1, i + 1);
        assert Retry(w, t, i) == Retry(w, t1, i + 1);
        CallsShift(t, t1, Retry(w, t1, i + 1), i, MaxRetries - (i + 1));
      }
    } else {
      assert Retry(w, t, i).requested == t.requested && Retry(w, t, i).sleeps == t.sleeps;
      assert t.requested + Repeat(t.offset, 0) == t.requested;
      assert t.sleeps + Backoff(i, 0) == t.sleeps;
      assert t.events + BackoffEvents(i, 0, t.offset) == t.events;
    }
  }

  /** `r` made at most `bound` calls after `t`, all at `t`'s cursor, each
      right after its sleep of the back-off from attempt `i`. */
  predicate CallsFrom(t: Trace, r: Trace, i: nat, bound: nat) {
    |t.requested| <= |r.requested| <= |t.requested| + bound
    && var m := |r.requested| - |t.requested|;
    r.requested == t.requested + Repeat(t.offset, m) && r.sleeps == t.sleeps + Backoff(i, m)
    && r.events == t.events + BackoffEvents(i, m, t.offset)
  }

  lemma CallsShift(t: Trace, t1: Trace, r: Trace, i: nat, bound: nat)
    requires t1.requested == t.requested + [t.offset] && t1.sleeps == t.sleeps + [Pow2(i)] && t1.offset == t.offset
    requires t1.events == t.events + [Sleep(Pow2(i)), Call(t.offset)]
    requires CallsFrom(t1, r, i + 1, bound)
    ensures CallsFrom(t, r, i, bound + 1)
  {
    var m := |r.requested| - |t1.requested|;
    assert Repeat(t.offset, m + 1) == [t.offset] + Repeat(t.offset, m);
    assert t1.requested + Repeat(t.offset, m) == t.requested + Repeat(t.offset, m + 1);
    assert t1.sleeps + Backoff(i + 1, m) == t.sleeps + Backoff(i, m + 1);
    assert t1.events + BackoffEvents(i + 1, m, t.offset) == t.events + BackoffEvents(i, m + 1, t.offset);
  }

  /** From attempt `i` on, with `m` the number of calls made: every call but
      the last failed, and the process exits with status 1 exactly when the
      attempts ran out and the last one failed; otherwise the last one
      succeeded and the loop goes on. */
  lemma {:induction false} RetryOutcome(w: World, t: Trace, i: nat)
    requires t.status == Polling && i <= MaxRetries
    ensures OutcomeFrom(w, t, Retry(w, t, i), MaxRetries - i)
    decreases MaxRetries - i
  {
    if i < MaxRetries {
      var t1 := t.(sleeps := t.sleeps + [Pow2(i)], requested := t.requested + [t.offset],
                   events := t.events + [Sleep(Pow2(i)), Call(t.offset)]);
      if !w.fetch(|t.requested|, t.offset).Fetched? {
        RetryOutcome(w, t1, i + 1);
        assert Retry(w, t, i) == Retry(w, t1, i + 1);
        OutcomeShift(w, t, t1, Retry(w, t1, i + 1), MaxRetries - (i + 1));
      } else {
        assert Retry(w, t, i) == t1;
      }
    } else {
      assert Retry(w, t, i) == t.(status := Exited(1));
    }
  }

  /** The calls `r` made after `t`, at `t`'s cursor with `left` attempts
      left: all but the last failed, the process exits with status 1 exactly
      when all `left` were made and the last failed, and otherwise the last
      one succeeded. */
  predicate OutcomeFrom(w: World, t: Trace, r: Trace, left: nat) {
    var n0 := |t.requested|;
    n0 <= |r.requested|
    && var m := |r.requested| - n0;
    (forall n :: n0 <= n < n0 + m - 1 ==> w.fetch(n, t.offset).FetchFailed?)
    && (r.status == Exited(1) <==> m == left && (m == 0 || w.fetch(n0 + m - 1, t.offset).FetchFailed?))
    && (r.status != Exited(1) ==> r.status == Polling && m >= 1 && w.fetch(n0 + m - 1, t.offset).Fetched?)
  }

  lemma OutcomeShift(w: World, t: Trace, t1: Trace, r: Trace, left: nat)
    requires t1.requested == t.requested + [t.offset] && t1.offset == t.offset
    requires w.fetch(|t.requested|, t.offset).FetchFailed?
    requires OutcomeFrom(w, t1, r, left)
    ensures OutcomeFrom(w, t, r, left + 1)
  {
  }

  /** `retryPollUpdates` as a whole: the process exits with status 1 exactly
      when the five calls after the failed one all fail too, and it has then
      slept 1, 2, 4, 8 and 16 seconds at the unchanged cursor, each sleep
      before its call. */
  lemma RetryGivesUp(w: World, t: Trace)
    requires t.status == Polling
    ensures var r := Retry(w, t, 0);
      (r.status == Exited(1) <==> forall n :: |t.requested| <= n < |t.requested| + MaxRetries ==> w.fetch(n, t.offset).FetchFailed?)
      && (r.status == Exited(1) ==>
            r.sleeps == t.sleeps + [1, 2, 4, 8, 16] && r.requested == t.requested + Repeat(t.offset, MaxRetries)
            && r.events == t.events + [Sleep(1), Call(t.offset), Sleep(2), Call(t.offset), Sleep(4), Call(t.offset),
                                       Sleep(8), Call(t.offset), Sleep(16), Call(t.offset)])
  {
    var r, n0 := Retry(w, t, 0), |t.requested|;
    RetryCalls(w, t, 0);
    RetryOutcome(w, t, 0);
    var m := |r.requested| - n0;
    if r.status == Exited(1) {
      assert m == MaxRetries;
      BackoffSchedule();
      BackoffEventsSchedule(t.offset);
    } else {
      assert 1 <= m <= MaxRetries && w.fetch(n0 + m - 1, t.offset).Fetched?;
    }
  }

  // ---------------------------------------------------------------------
  // One round.

  /** A round whose `getUpdates` call fails moves nothing: the cursor stays,
      no title is looked up and nothing is sent; at least one retry follows,
      every retry asks again at the same cursor, and the process either goes
      on or exits with status 1. */
  lemma RoundFetchFailed(w: World, t: Trace)
    requires t.status == Polling && w.fetch(|t.requested|, t.offset).FetchFailed?
    ensures var r := Round(w, t);
      r.offset == t.offset && r.lookups == t.lookups && r.sent == t.sent
      && (r.status == Polling || r.status == Exited(1))
      && |t.requested| + 2 <= |r.requested| <= |t.requested| + 1 + MaxRetries
      && r.requested == t.requested + Repeat(t.offset, |r.requested| - |t.requested|)
      && r.events == t.events + [Call(t.offset)] + BackoffEvents(0, |r.requested| - |t.requested| - 1, t.offset)
                     + (if r.status == Polling then [Sleep(1)] else [])
  {
    var t1 := t.(requested := t.requested + [t.offset], events := t.events + [Call(t.offset)]);
    var t2 := Retry(w, t1, 0);
    RetryKeepsCursor(w, t1, 0);
    RetryCalls(w, t1, 0);
    RetryOutcome(w, t1, 0);
    var m := |t2.requested| - |t1.requested|;
    assert Repeat(t.offset, m + 1) == [t.offset] + Repeat(t.offset, m);
    assert t2.requested == t.requested + Repeat(t.offset, m + 1);
    assert Round(w, t).requested == t2.requested;
  }

  /** A round whose `getUpdates` call succeeds makes that one call, handles
      the batch and, unless the process ends, sleeps one second; the cursor
      is then one past the last update's ID, and a title is looked up for
      every update in order. */
  lemma RoundFetched(w: World, t: Trace, ups: seq<Update>)
    requires t.status == Polling && w.fetch(|t.requested|, t.offset) == Fetched(ups)
    ensures var r := Round(w, t);
      r.requested == t.requested + [t.offset]
      && (r.status == Polling || r.status == Exited(2))
      && (r.status == Polling ==>
            r.sleeps == t.sleeps + [1] && r.events == t.events + [Call(t.offset), Sleep(1)]
            && r.lookups == t.lookups + Urls(Jobs(ups))
            && r.offset == if ups == [] then t.offset else ups[|ups| - 1].id + 1)
  {
    var t1 := t.(requested := t.requested + [t.offset], events := t.events + [Call(t.offset)]);
    HandleAllEffect(w, t1, Jobs(ups));
  }

  /** After a round the process goes on, or has ended with status 1 or 2; if
      it goes on, the round's last act was a one-second sleep. */
  lemma RoundStatus(w: World, t: Trace)
    requires t.status == Polling
    ensures var r := Round(w, t);
      (r.status == Polling || r.status == Exited(1) || r.status == Exited(2))
      && (r.status == Polling ==> |r.sleeps| > 0 && r.sleeps[|r.sleeps| - 1] == 1)
  {
    match w.fetch(|t.requested|, t.offset)
    case FetchFailed => RoundFetchFailed(w, t);
    case Fetched(ups) => RoundFetched(w, t, ups);
  }

  // ---------------------------------------------------------------------
  // Whole runs.

  /** A run ends: on shutdown, when the retries run out (1), or on the panic
      of a title lookup (2). */
  lemma {:induction false} RunEnds(w: World, t: Trace, rounds: nat)
    requires t.status == Polling
    ensures var r := Run(w, t, rounds);
      r.status == Stopped || r.status == Exited(1) || r.status == Exited(2)
    decreases rounds
  {
    if rounds > 0 {
      var t1 := Round(w, t);
      RoundStatus(w, t);
      if t1.status == Polling {
        RunEnds(w, t1, rounds - 1);
      }
    }
  }

  /** The world never answers a title lookup with a panic. */
  ghost predicate NeverPanics(w: World) {
    forall n: nat :: w.title(n).Found?
  }

  /** Titles read off pages whose `title` elements all have a child never
      panic. */
  lemma FromPagesNeverPanics(w: World, pages: nat -> PageOutcome)
    requires FromPages(w, pages)
    requires forall n: nat :: pages(n).Page? ==> TitlesHaveChild(pages(n).doc)
    ensures NeverPanics(w)
  {
    forall n: nat ensures w.title(n).Found? {
      if pages(n).Page? {
        NoPanicWhenTitlesHaveChild(pages(n).doc);
      }
    }
  }

  /** Where title lookups never panic, a run ends only on shutdown or when
      the retries run out. */
  lemma {:induction false} RunNeverPanics(w: World, t: Trace, rounds: nat)
    requires NeverPanics(w) && t.status == Polling
    ensures var r := Run(w, t, rounds); r.status == Stopped || r.status == Exited(1)
    decreases rounds
  {
    if rounds > 0 {
      var t1 := Round(w, t);
      RoundNeverPanics(w, t);
      if t1.status == Polling {
        RunNeverPanics(w, t1, rounds - 1);
      }
    }
  }

  lemma RoundNeverPanics(w: World, t: Trace)
    requires NeverPanics(w) && t.status == Polling
    ensures Round(w, t).status == Polling || Round(w, t).status == Exited(1)
  {
    match w.fetch(|t.requested|, t.offset)
    case FetchFailed => RoundFetchFailed(w, t);
    case Fetched(ups) =>
      var t1 := t.(requested := t.requested + [t.offset], events := t.events + [Call(t.offset)]);
      HandleAllPanics(w, t1, Jobs(ups));
      RoundFetched(w, t, ups);
  }

  /** When every fetch succeeds and no lookup panics, the run lasts until the
      shutdown, with exactly one `getUpdates` call and one one-second sleep
      per round. */
  lemma {:induction false} RunHealthy(w: World, t: Trace, rounds: nat)
    requires NeverPanics(w) && t.status == Polling
    requires forall n: nat, o: int :: w.fetch(n, o).Fetched?
    ensures var r := Run(w, t, rounds);
      r.status == Stopped && |r.requested| == |t.requested| + rounds && r.sleeps == t.sleeps + Repeat(1, rounds)
    decreases rounds
  {
    if rounds == 0 {
      assert t.sleeps + Repeat(1, 0) == t.sleeps;
    } else {
      var t1 := Round(w, t);
      var ups := w.fetch(|t.requested|, t.offset).updates;
      RoundFetched(w, t, ups);
      RoundNeverPanics(w, t);
      RunHealthy(w, t1, rounds - 1);
      assert Repeat(1, rounds) == [1] + Repeat(1, rounds - 1);
      assert t1.sleeps + Repeat(1, rounds - 1) == t.sleeps + Repeat(1, rounds);
    }
  }

  // ---------------------------------------------------------------------
  // What every dispatch looks like.

  /** A dispatch as the bot sends it: a "webhook" event for a URL word, its
      title free of surrounding white space. */
  predicate GoodSent(s: Sent) {
    var p := s.dispatch.clientPayload;
    s.dispatch.eventType == WebhookEvent && IsLink(p.url) && Trimmed(p.title)
  }

  predicate AllGood(sent: seq<Sent>) {
    forall k :: 0 <= k < |sent| ==> GoodSent(sent[k])
  }

  /** Every title the world reports is trimmed. */
  ghost predicate TitlesTrimmed(w: World) {
    forall n: nat :: w.title(n).Found? ==> Trimmed(w.title(n).text)
  }

  /** Titles that `getTitle` reads off pages are trimmed. */
  lemma FromPagesTrimmed(w: World, pages: nat -> PageOutcome)
    requires FromPages(w, pages)
    ensures TitlesTrimmed(w)
  {
    forall n: nat | w.title(n).Found? ensures Trimmed(w.title(n).text) {
      assert w.title(n) == PageTitle(pages(n));
    }
  }

  /** The URL an update yields is "" or a URL word of its text. */
  lemma JobUrl(u: Update)
    ensures var url := JobOf(u).url; url == "" || (IsLink(url) && url in Fields(TextOf(u)))
  {
  }

  lemma StepKeepsGood(w: World, t: Trace, j: Job)
    requires TitlesTrimmed(w) && AllGood(t.sent) && (j.url == "" || IsLink(j.url))
    ensures AllGood(Step(w, t, j).sent)
  {
  }

  /** Handling a batch of URLs that are "" or URL words adds only good
      dispatches. */
  lemma {:induction false} HandleAllKeepsGood(w: World, t: Trace, js: seq<Job>)
    requires TitlesTrimmed(w) && AllGood(t.sent)
    requires forall k :: 0 <= k < |js| ==> js[k].url == "" || IsLink(js[k].url)
    ensures AllGood(HandleAll(w, t, js).sent)
    decreases |js|
  {
    if js != [] {
      var pre := js[..|js| - 1];
      HandleAllKeepsGood(w, t, pre);
      var h := HandleAll(w, t, pre);
      if h.status == Polling {
        StepKeepsGood(w, h, js[|js| - 1]);
      }
    }
  }

  lemma RoundKeepsGood(w: World, t: Trace)
    requires TitlesTrimmed(w) && AllGood(t.sent) && t.status == Polling
    ensures AllGood(Round(w, t).sent)
  {
    match w.fetch(|t.requested|, t.offset)
    case FetchFailed => RoundFetchFailed(w, t);
    case Fetched(ups) =>
      var t1 := t.(requested := t.requested + [t.offset], events := t.events + [Call(t.offset)]);
      var js := Jobs(ups);
      forall k | 0 <= k < |js| ensures js[k].url == "" || IsLink(js[k].url) {
        JobUrl(ups[k]);
      }
      HandleAllKeepsGood(w, t1, js);
  }

  /** Where titles are trimmed, every dispatch of a run is a "webhook" event
      for a URL word with a trimmed title. */
  lemma {:induction false} RunKeepsGood(w: World, t: Trace, rounds: nat)
    requires TitlesTrimmed(w) && AllGood(t.sent)
    ensures AllGood(Run(w, t, rounds).sent)
    decreases rounds
  {
    if t.status == Polling && rounds > 0 {
      RoundKeepsGood(w, t);
      RunKeepsGood(w, Round(w, t), rounds - 1);
    }
  }

  // ---------------------------------------------------------------------
  // The cursor.

  /** The Bot API's promise, stated on decoded IDs: the updates of a call
      are those with an ID at least the offset asked for.  The IDs the
      source's decoder yields are all 0 (see `ZeroIdsKeepCursorAtOne`), and
      they do not keep this promise once the offset is 1. */
  ghost predicate Honest(w: World) {
    forall n: nat, o: int :: w.fetch(n, o).Fetched? ==> forall u :: u in w.fetch(n, o).updates ==> u.id >= o
  }

  /** The offsets passed to `getUpdates` never decrease, and none is past the
      cursor. */
  predicate Ordered(requested: seq<int>, offset: int) {
    (forall i, j :: 0 <= i < j < |requested| ==> requested[i] <= requested[j])
    && forall i :: 0 <= i < |requested| ==> requested[i] <= offset
  }

  lemma OrderedExtend(requested: seq<int>, offset: int, m: nat, next: int)
    requires Ordered(requested, offset) && offset <= next
    ensures Ordered(requested + Repeat(offset, m), next)
  {
  }

  /** Handling a batch of updates at or past the cursor moves the cursor
      forward, strictly unless the batch is empty. */
  lemma {:induction false} HandleAllAdvances(w: World, t: Trace, js: seq<Job>)
    requires t.status == Polling && forall k :: 0 <= k < |js| ==> js[k].id >= t.offset
    ensures var r := HandleAll(w, t, js); r.offset >= t.offset && (js != [] ==> r.offset > t.offset)
    decreases |js|
  {
    if js != [] {
      var pre := js[..|js| - 1];
      HandleAllAdvances(w, t, pre);
    }
  }

  /** With every ID decoded as 0, a round with a non-empty batch leaves the
      cursor at 1 whatever it was, unless the process ends. */
  lemma ZeroIdsKeepCursorAtOne(w: World, t: Trace, ups: seq<Update>)
    requires t.status == Polling && w.fetch(|t.requested|, t.offset) == Fetched(ups)
    requires ups != [] && forall k :: 0 <= k < |ups| ==> ups[k].id == 0
    ensures var r := Round(w, t); r.status == Polling ==> r.offset == 1
  {
    RoundFetched(w, t, ups);
  }

  lemma RoundAdvances(w: World, t: Trace)
    requires Honest(w) && t.status == Polling && Ordered(t.requested, t.offset)
    ensures var r := Round(w, t); Ordered(r.requested, r.offset) && r.offset >= t.offset
  {
    match w.fetch(|t.requested|, t.offset)
    case FetchFailed =>
      RoundFetchFailed(w, t);
      var r := Round(w, t);
      OrderedExtend(t.requested, t.offset, |r.requested| - |t.requested|, t.offset);
    case Fetched(ups) =>
      var t1 := t.(requested := t.requested + [t.offset], events := t.events + [Call(t.offset)]);
      var js := Jobs(ups);
      forall k | 0 <= k < |js| ensures js[k].id >= t.offset {
        assert ups[k] in w.fetch(|t.requested|, t.offset).updates;
      }
      HandleAllAdvances(w, t1, js);
      HandleAllEffect(w, t1, js);
      RoundFetched(w, t, ups);
      assert Repeat(t.offset, 1) == [t.offset];
      OrderedExtend(t.requested, t.offset, 1, Round(w, t).offset);
  }

  /** Where the Bot API keeps its promise, the cursor of a run never goes
      back and the offsets it asks for never decrease. */
  lemma {:induction false} RunAdvances(w: World, t: Trace, rounds: nat)
    requires Honest(w) && Ordered(t.requested, t.offset)
    ensures var r := Run(w, t, rounds); Ordered(r.requested, r.offset) && r.offset >= t.offset
    decreases rounds
  {
    if t.status == Polling && rounds > 0 {
      RoundAdvances(w, t);
      RunAdvances(w, Round(w, t), rounds - 1);
    }
  }
}
