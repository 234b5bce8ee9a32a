/**
 * The two URL forms the component builds: the standard viewer URL with
 * query parameters, and the Teams deep link whose `context` carries a
 * six-slot, colon-joined subEntityId and whose query is percent-encoded
 * with `encodeURI`.
 */
module Links {
  import opened Seqs
  import opened Uri

  /**
   * The deep-link path of the learning app in Teams. The literal is split
   * into short pieces so that the verifier can see, piece by piece, that
   * it contains no `?` (which `TeamsUrlShape` relies on).
   */
  const TeamsAppPath: string :=
    "https://teams.mi" + "crosoft.com/l/en" + "tity/141d4ab7-b6" + "ca-4bf4-ac59-25b" + "7bf93642d/"

  /** The opening of the deep link's `context` query value. */
  const ContextOpen: string := "context={\"subEntityId\":"

  /** The deep-link prefix the constructor stores for a Teams entity id. */
  function TeamsContextUrl(entityId: string): string
  {
    TeamsAppPath + entityId + "?" + ContextOpen
  }

  /** Where the first `c` in `s` is, or -1. */
  function FirstIndexOf(s: string, c: char): (i: int)
    ensures -1 <= i < |s|
    ensures i >= 0 ==> s[i] == c && c !in s[..i]
    ensures i < 0 ==> c !in s
    decreases |s|
  {
    if s == [] then -1
    else if s[0] == c then 0
    else
      var k := FirstIndexOf(s[1..], c);
      assert s[1..][..if k < 0 then 0 else k] == s[1..if k < 0 then 1 else k + 1];
      if k < 0 then -1 else k + 1
  }

  /**
   * The encoding step as the component writes it: split the URL at `?`,
   * keep piece 0, and encode piece 1 only; a URL without `?` gets the
   * text `undefined` after the `?` it is given.
   */
  function EncodeQueryAsWritten(url: string): (r: string)
    ensures '?' !in url ==> r == url + "?" + EncodeUri("undefined")
    ensures '?' in url ==>
      var i := FirstIndexOf(url, '?');
      |r| > i && r[..i + 1] == url[..i + 1] && PercentDecode(r[i + 1..]) == Split(url[i + 1..], '?')[0]
  {
    var parts := Split(url, '?');
    var piece := if |parts| > 1 then parts[1] else "undefined";
    var i := FirstIndexOf(url, '?');
    EncodeUriRoundTrip(piece);
    AroundMark(parts[0], EncodeUri(piece));
    if i < 0 then parts[0] + "?" + EncodeUri(piece)
    else SplitAtFirst(url, '?', i); parts[0] + "?" + EncodeUri(piece)
  }

  /** Splitting at the first separator: the text before it, then the pieces of the rest. */
  lemma SplitAtFirst(s: string, sep: char, i: nat)
    requires i < |s| && s[i] == sep && sep !in s[..i]
    ensures Split(s, sep) == [s[..i]] + Split(s[i + 1..], sep)
    ensures s[..i + 1] == s[..i] + [sep]
  {
    assert s == s[..i] + [sep] + s[i + 1..];
    SplitPrefix(s[..i], s[i + 1..], sep);
  }

  /** The two sides of the `?` in `a + "?" + b`. */
  lemma AroundMark(a: string, b: string)
    ensures (a + "?" + b)[..|a| + 1] == a + "?" && (a + "?" + b)[|a| + 1..] == b
  {
  }

  /**
   * The encoding step as intended: everything after the first `?` is
   * percent-encoded (a URL without `?` is treated as above).
   */
  function EncodeQuery(url: string): (r: string)
    ensures FirstIndexOf(url, '?') >= 0 ==>
      var i := FirstIndexOf(url, '?');
      |r| > i && r[..i + 1] == url[..i + 1] && PercentDecode(r[i + 1..]) == url[i + 1..]
  {
    var i := FirstIndexOf(url, '?');
    if i < 0 then url + "?" + EncodeUri("undefined")
    else
      EncodeUriRoundTrip(url[i + 1..]);
      url[..i + 1] + EncodeUri(url[i + 1..])
  }

  /** Once the part before the first `?` is free of `?`, the intended step encodes exactly the rest. */
  lemma EncodeQueryShape(a: string, b: string)
    requires '?' !in a
    ensures EncodeQuery(a + "?" + b) == a + "?" + EncodeUri(b)
  {
    var url := a + "?" + b;
    assert url[..|a|] == a && url[|a|] == '?';
    FirstIndexUnique(url, |a|);
    assert url[..|a| + 1] == a + "?" && url[|a| + 1..] == b;
  }

  /** With at most one `?` in the URL the written step and the intended one agree. */
  lemma EncodeQueryAgrees(a: string, b: string)
    requires '?' !in a && '?' !in b
    ensures EncodeQueryAsWritten(a) == EncodeQuery(a)
    ensures EncodeQueryAsWritten(a + "?" + b) == EncodeQuery(a + "?" + b)
  {
    assert EncodeQueryAsWritten(a) == EncodeQuery(a) by {
      assert Split(a, '?') == [a];
      assert FirstIndexOf(a, '?') < 0;
    }
    var url := a + "?" + b;
    assert EncodeQueryAsWritten(url) == a + "?" + EncodeUri(b) by {
      assert url == a + ['?'] + b;
      SplitPrefix(a, b, '?');
    }
    EncodeQueryShape(a, b);
  }

  /** A `?` with none before it is the first one. */
  lemma {:induction false} FirstIndexUnique(s: string, k: nat)
    requires k < |s| && s[k] == '?' && '?' !in s[..k]
    ensures FirstIndexOf(s, '?') == k
    decreases k
  {
    if k > 0 {
      assert s[0] == s[..k][0];
      assert s[1..][..k - 1] == s[1..k];
      FirstIndexUnique(s[1..], k - 1);
    }
  }

  /**
   * With a second `?` the written step loses everything from that `?` on:
   * only the text between the first two question marks survives.
   */
  lemma EncodeQueryAsWrittenTruncates(a: string, b: string, c: string)
    requires '?' !in a && '?' !in b
    ensures EncodeQueryAsWritten(a + "?" + b + "?" + c) == a + "?" + EncodeUri(b)
  {
    var url := a + "?" + b + "?" + c;
    assert url == a + "?" + (b + "?" + c);
    SplitPrefix(a, b + "?" + c, '?');
    SplitPrefix(b, c, '?');
    assert b + "?" + c == b + ['?'] + c;
  }

  /** A concrete URL on which the two steps differ: the written one drops `?b`. */
  lemma EncodeQueryCounterexample()
    ensures EncodeQueryAsWritten("h?a?b") == "h?a"
    ensures EncodeQuery("h?a?b") == "h?a?b"
  {
    AsWrittenDropsSecondQuery();
    IntendedKeepsSecondQuery();
  }

  lemma AsWrittenDropsSecondQuery()
    ensures EncodeQueryAsWritten("h?a?b") == "h?a"
  {
    assert "h" + "?" + "a" + "?" + "b" == "h?a?b";
    EncodeQueryAsWrittenTruncates("h", "a", "b");
    EncodeUriKeepsSafe("a");
  }

  lemma IntendedKeepsSecondQuery()
    ensures EncodeQuery("h?a?b") == "h?a?b"
  {
    assert "h" + "?" + "a?b" == "h?a?b";
    EncodeQueryKeepsSafeQuery("h", "a?b");
  }

  /** A query of characters `encodeURI` leaves alone comes through the intended step unchanged. */
  lemma EncodeQueryKeepsSafeQuery(a: string, b: string)
    requires '?' !in a
    requires forall i :: 0 <= i < |b| ==> Unescaped(b[i])
    ensures EncodeQuery(a + "?" + b) == a + "?" + b
  {
    EncodeQueryShape(a, b);
    EncodeUriKeepsSafe(b);
  }

  /** The deep link for a Teams entity and the six subEntityId slots. */
  function TeamsUrl(entityId: string, slots: seq<string>): string
  {
    EncodeQuery(TeamsContextUrl(entityId) + "\"" + Join(slots, ':') + "\"}")
  }

  /** The `context` query value a deep link carries, before encoding. */
  function TeamsContext(slots: seq<string>): string
  {
    ContextOpen + "\"" + Join(slots, ':') + "\"}"
  }

  /**
   * A deep link is the app path, the entity id, `?`, and the encoded
   * context; decoding the query gives the context back.
   */
  lemma TeamsUrlShape(entityId: string, slots: seq<string>)
    requires '?' !in entityId
    ensures TeamsUrl(entityId, slots) == TeamsAppPath + entityId + "?" + EncodeUri(TeamsContext(slots))
    ensures PercentDecode(EncodeUri(TeamsContext(slots))) == TeamsContext(slots)
  {
    var a := TeamsAppPath + entityId;
    var b := TeamsContext(slots);
    assert TeamsContextUrl(entityId) + "\"" + Join(slots, ':') + "\"}" == a + "?" + b;
    assert '?' !in a;
    EncodeQueryShape(a, b);
    EncodeUriRoundTrip(b);
  }

}
