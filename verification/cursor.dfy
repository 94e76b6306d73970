/** Stream positions, `{streamId}:{sequence}`, as they travel in the SSE `id` field and in Last-Event-ID. */
module Cursors {
  import opened Json
  import opened Text

  datatype Cursor = Cursor(streamId: string, sequence: nat)

  /** The cursors `Parse` can produce. */
  predicate Valid(c: Cursor) {
    c.streamId != "" && ControlFree(c.streamId) && c.sequence < U64_LIMIT
  }

  /** The prefix before the last colon, or None: the split point of `rsplit_once(':')`. */
  function LastColon(s: string): Option<nat> {
    if s == "" then None
    else if s[|s| - 1] == ':' then Some(|s| - 1)
    else LastColon(s[..|s| - 1])
  }

  function Parse(s: string): Option<Cursor> {
    match LastColon(s)
    case None => None
    case Some(at) =>
      if at >= |s| || at == 0 || !ControlFree(s[..at]) then None
      else match ParseU64(s[at + 1..])
      case None => None
      case Some(sequence) => Some(Cursor(s[..at], sequence))
  }

  function Encode(c: Cursor): string {
    c.streamId + ":" + Decimal(c.sequence)
  }

  lemma {:induction false} LastColonOfSplit(front: string, tail: string)
    requires ':' !in tail
    ensures LastColon(front + ":" + tail) == Some(|front|)
  {
    var s := front + ":" + tail;
    if tail != "" {
      assert s[|s| - 1] == tail[|tail| - 1];
      assert s[..|s| - 1] == front + ":" + tail[..|tail| - 1];
      LastColonOfSplit(front, tail[..|tail| - 1]);
    }
  }

  lemma {:induction false} LastColonSplits(s: string)
    ensures LastColon(s).Some? ==> LastColon(s).value < |s| && s[LastColon(s).value] == ':'
    ensures LastColon(s).Some? ==> ':' !in s[LastColon(s).value + 1..]
    ensures LastColon(s).None? ==> ':' !in s
  {
    if s != "" && s[|s| - 1] != ':' {
      var front := s[..|s| - 1];
      LastColonSplits(front);
      assert s == front + [s[|s| - 1]];
      if LastColon(s).Some? {
        var at := LastColon(s).value;
        assert s[at + 1..] == front[at + 1..] + [s[|s| - 1]];
      }
    }
  }

  /** A cursor survives the trip to the client and back exactly when it is valid. */
  lemma EncodeThenParse(c: Cursor)
    requires c.sequence < U64_LIMIT
    ensures Parse(Encode(c)) == Some(c) <==> Valid(c)
  {
    DecimalReadsBack(c.sequence);
    FormatThenParse(c.sequence);
    LastColonOfSplit(c.streamId, Decimal(c.sequence));
    assert Encode(c)[..|c.streamId|] == c.streamId;
    assert Encode(c)[|c.streamId| + 1..] == Decimal(c.sequence);
  }

  lemma ParsedParts(s: string)
    requires Parse(s).Some?
    ensures var c := Parse(s).value;
      Valid(c) && |c.streamId| < |s| && s == c.streamId + ":" + s[|c.streamId| + 1..]
      && ParseU64(s[|c.streamId| + 1..]) == Some(c.sequence)
  {
    LastColonSplits(s);
  }

  /** An accepted Last-Event-ID is a valid cursor, and it is the cursor's own text exactly when
      the digits are canonical: a plus sign and leading zeros are read but never written. */
  lemma ParseThenEncode(s: string)
    requires Parse(s).Some?
    ensures Valid(Parse(s).value)
    ensures Encode(Parse(s).value) == s <==> Canonical(s[|Parse(s).value.streamId| + 1..])
  {
    ParsedParts(s);
    var c := Parse(s).value;
    var tail := s[|c.streamId| + 1..];
    ParseThenFormat(tail);
    SameTail(c.streamId + ":", Decimal(c.sequence), tail);
  }

  lemma SameTail(front: string, a: string, b: string)
    ensures front + a == front + b <==> a == b
  {
    if front + a == front + b {
      assert (front + a)[|front|..] == a && (front + b)[|front|..] == b;
    }
  }

  /** Distinct cursors never share a text. */
  lemma EncodeInjective(c: Cursor, d: Cursor)
    requires Encode(c) == Encode(d)
    ensures c == d
  {
    DecimalReadsBack(c.sequence);
    DecimalReadsBack(d.sequence);
    LastColonOfSplit(c.streamId, Decimal(c.sequence));
    LastColonOfSplit(d.streamId, Decimal(d.sequence));
    assert Encode(c)[..|c.streamId|] == c.streamId && Encode(d)[..|d.streamId|] == d.streamId;
    assert Encode(c)[|c.streamId| + 1..] == Decimal(c.sequence);
    assert Encode(d)[|d.streamId| + 1..] == Decimal(d.sequence);
  }
}
