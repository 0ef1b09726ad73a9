/** The extractor `parseURLAndTags` of extension/tgbot/main.go: one left-to-right
    pass over the words of a message that collects `#` tags and stops at the
    first `http://` or `https://` word. */
module Extractor {
  import opened Text

  /** A word the extractor takes as a tag. */
  predicate IsTag(w: string) {
    HasPrefix(w, "#")
  }

  /** A word the extractor takes as the URL. */
  predicate IsLink(w: string) {
    HasPrefix(w, "http://") || HasPrefix(w, "https://")
  }

  /** What one message yields: the URL ("" when there is none) and the tags. */
  datatype Extracted = Extracted(url: string, tags: seq<string>)

  /** A URL word never starts with `#`, so the tag test that the source runs
      first can never hide a URL. */
  lemma LinkIsNotTag(w: string)
    ensures IsLink(w) ==> !IsTag(w) && |w| >= 7
  {
    if HasPrefix(w, "http://") {
      assert w[0] == w[..7][0] == 'h';
    } else if HasPrefix(w, "https://") {
      assert w[0] == w[..8][0] == 'h';
    }
    if IsTag(w) {
      assert w[0] == w[..1][0] == '#';
    }
  }

  /** Index of the first URL word of `ws`, or `|ws|` when there is none. */
  function FirstLink(ws: seq<string>): (k: nat)
    ensures k <= |ws|
    ensures forall j :: 0 <= j < k ==> !IsLink(ws[j])
    ensures k < |ws| ==> IsLink(ws[k])
  {
    if ws == [] || IsLink(ws[0]) then 0 else 1 + FirstLink(ws[1..])
  }

  /** The first URL word is the one no earlier URL word precedes. */
  lemma FirstLinkAt(ws: seq<string>, i: nat)
    requires i <= |ws| && forall j :: 0 <= j < i ==> !IsLink(ws[j])
    requires i == |ws| || IsLink(ws[i])
    ensures FirstLink(ws) == i
  {
  }

  /** The `#` words of `ws` in order, duplicates kept, each with exactly one
      leading `#` removed. */
  function TagsOf(ws: seq<string>): seq<string> {
    if ws == [] then []
    else (if IsTag(ws[0]) then [TrimPrefix(ws[0], "#")] else []) + TagsOf(ws[1..])
  }

  lemma {:induction false} TagsOfAppend(a: seq<string>, b: seq<string>)
    ensures TagsOf(a + b) == TagsOf(a) + TagsOf(b)
    decreases |a|
  {
    if a == [] {
      assert a + b == b;
    } else {
      assert (a + b)[1..] == a[1..] + b;
      TagsOfAppend(a[1..], b);
    }
  }

  /** What one pass over a word list yields: the first URL word ("" when
      there is none) and the tags of the words strictly before it. */
  function FromWords(ws: seq<string>): Extracted {
    var k := FirstLink(ws);
    Extracted(if k < |ws| then ws[k] else "", TagsOf(ws[..k]))
  }

  /** The result `parseURLAndTags` is meant to compute for a message text. */
  function Extract(text: string): Extracted {
    FromWords(Fields(text))
  }

  lemma ParseStep(words: seq<string>, i: nat)
    requires i < |words|
    ensures TagsOf(words[..i + 1])
            == TagsOf(words[..i]) + (if IsTag(words[i]) then [TrimPrefix(words[i], "#")] else [])
  {
    assert words[..i + 1] == words[..i] + [words[i]];
    TagsOfAppend(words[..i], [words[i]]);
  }

  /** `parseURLAndTags` as the source runs it: for each word, a `#` word is
      appended as a tag, and the first URL word is kept and ends the loop. */
  method ParseURLAndTags(text: string) returns (url: string, tags: seq<string>)
    ensures Extracted(url, tags) == Extract(text)
  {
    var words := Fields(text);
    url, tags := "", [];
    var i := 0;
    while i < |words|
      invariant 0 <= i <= |words|
      invariant forall j :: 0 <= j < i ==> !IsLink(words[j])
      invariant tags == TagsOf(words[..i])
      invariant url == ""
    {
      var word := words[i];
      ParseStep(words, i);
      LinkIsNotTag(word);
      if IsTag(word) {
        tags := tags + [TrimPrefix(word, "#")];
      } else if IsLink(word) {
        url := word;
        FirstLinkAt(words, i);
        break;
      }
      i := i + 1;
    }
    if url == "" {
      FirstLinkAt(words, |words|);
    }
  }

  /** The URL is "" exactly when no word is a URL, and otherwise it is the
      first URL word. */
  lemma UrlOfWords(ws: seq<string>)
    ensures var url := FromWords(ws).url;
      (url == "" <==> forall j :: 0 <= j < |ws| ==> !IsLink(ws[j]))
      && (url != "" ==> exists k :: 0 <= k < |ws| && url == ws[k] && IsLink(ws[k])
                                      && forall j :: 0 <= j < k ==> !IsLink(ws[j]))
  {
    var k := FirstLink(ws);
    if k < |ws| {
      LinkIsNotTag(ws[k]);
    }
  }

  /** The same, stated on the message text. */
  lemma ExtractUrl(text: string)
    ensures var ws, e := Fields(text), Extract(text);
      (e.url == "" <==> forall j :: 0 <= j < |ws| ==> !IsLink(ws[j]))
      && (e.url != "" ==> exists k :: 0 <= k < |ws| && e.url == ws[k] && IsLink(ws[k])
                                      && forall j :: 0 <= j < k ==> !IsLink(ws[j]))
  {
    UrlOfWords(Fields(text));
  }

  /** Without a URL word the URL is "" and every `#` word of the text is a tag. */
  lemma ExtractWithoutLink(text: string)
    requires forall w :: w in Fields(text) ==> !IsLink(w)
    ensures Extract(text) == Extracted("", TagsOf(Fields(text)))
  {
    var ws := Fields(text);
    FirstLinkAt(ws, |ws|);
    assert ws[..|ws|] == ws;
  }

  /** Empty or all-white-space text yields no URL and no tags. */
  lemma ExtractBlank(text: string)
    requires AllSpace(text)
    ensures Extract(text) == Extracted("", [])
  {
    FieldsEmpty(text);
  }

  /** A tag word in front contributes its tag, one `#` removed, ahead of the
      tags of the words after it; those words decide the URL. */
  lemma FromWordsTagFirst(w: string, ws: seq<string>)
    requires IsTag(w)
    ensures FromWords([w] + ws) == Extracted(FromWords(ws).url, [w[1..]] + FromWords(ws).tags)
  {
    LinkIsNotTag(w);
    var all := [w] + ws;
    assert all[1..] == ws;
    var k := FirstLink(ws);
    assert FirstLink(all) == 1 + k;
    assert all[..1 + k] == [w] + ws[..k];
    TagsOfAppend([w], ws[..k]);
  }

  /** A URL word in front ends the pass at once. */
  lemma FromWordsLinkFirst(w: string, ws: seq<string>)
    requires IsLink(w)
    ensures FromWords([w] + ws) == Extracted(w, [])
  {
    var all := [w] + ws;
    assert FirstLink(all) == 0;
    assert all[..0] == [];
  }

  /** A word that is neither a tag nor a URL is skipped. */
  lemma FromWordsOtherFirst(w: string, ws: seq<string>)
    requires !IsTag(w) && !IsLink(w)
    ensures FromWords([w] + ws) == FromWords(ws)
  {
    var all := [w] + ws;
    assert all[1..] == ws;
    var k := FirstLink(ws);
    assert FirstLink(all) == 1 + k;
    assert all[..1 + k] == [w] + ws[..k];
    TagsOfAppend([w], ws[..k]);
  }

  /** Words after the first URL word take no part. */
  lemma FromWordsAfterLink(a: seq<string>, b: seq<string>)
    requires FromWords(a).url != ""
    ensures FromWords(a + b) == FromWords(a)
  {
    var k := FirstLink(a);
    var all := a + b;
    assert k < |a|;
    assert all[k] == a[k];
    FirstLinkAt(all, k);
    assert all[..k] == a[..k];
  }

  /** On message text: a tag word, a white-space character and the rest. */
  lemma ExtractTagFirst(w: string, c: char, rest: string)
    requires IsTag(w) && NoSpace(w) && IsSpace(c)
    ensures Extract(w + [c] + rest) == Extracted(Extract(rest).url, [w[1..]] + Extract(rest).tags)
  {
    FieldsSeparated(w, c, rest);
    FieldsOfWord(w);
    FromWordsTagFirst(w, Fields(rest));
  }

  /** On message text: a URL word in front gives that URL and no tags,
      whatever follows. */
  lemma ExtractLinkFirst(w: string, c: char, rest: string)
    requires IsLink(w) && NoSpace(w) && IsSpace(c)
    ensures Extract(w + [c] + rest) == Extracted(w, [])
  {
    LinkIsNotTag(w);
    FieldsSeparated(w, c, rest);
    FieldsOfWord(w);
    FromWordsLinkFirst(w, Fields(rest));
  }

  /** On message text: a word that is neither tag nor URL is skipped. */
  lemma ExtractOtherFirst(w: string, c: char, rest: string)
    requires w != [] && NoSpace(w) && !IsTag(w) && !IsLink(w) && IsSpace(c)
    ensures Extract(w + [c] + rest) == Extract(rest)
  {
    FieldsSeparated(w, c, rest);
    FieldsOfWord(w);
    FromWordsOtherFirst(w, Fields(rest));
  }

  /** Once the text holds a URL word, whatever is appended after a white-space
      character, tags and further URLs included, changes nothing. */
  lemma ExtractIgnoresAfterLink(text: string, c: char, more: string)
    requires IsSpace(c) && Extract(text).url != ""
    ensures Extract(text + [c] + more) == Extract(text)
  {
    FieldsSeparated(text, c, more);
    FromWordsAfterLink(Fields(text), Fields(more));
  }

  /** The shape of the message "#a #b https://x.test/y #c": two tags, a URL
      and a trailing tag yield the URL and the first two tags only. */
  lemma ExtractTwoTagsLinkTag(a: string, b: string, u: string, c: string, sp: char)
    requires IsTag(a) && IsTag(b) && IsLink(u) && IsSpace(sp)
    requires NoSpace(a) && NoSpace(b) && NoSpace(u)
    ensures Extract(a + [sp] + (b + [sp] + (u + [sp] + c))) == Extracted(u, [a[1..], b[1..]])
  {
    var s3 := u + [sp] + c;
    var s2 := b + [sp] + s3;
    ExtractLinkFirst(u, sp, c);
    ExtractTagFirst(b, sp, s3);
    ExtractTagFirst(a, sp, s2);
  }

  /** Exactly one `#` is removed from a tag word, so `##a` yields `#a`. */
  lemma OneHashRemoved(t: string)
    ensures TagsOf(["#" + t]) == [t]
  {
    var w := "#" + t;
    var ws: seq<string> := [w];
    assert w[..1] == "#";
    assert ws[1..] == [];
    assert w[1..] == t;
  }
}
