/** InboundAmqpAdapter.onMessage: trim the payload, parse it as a UUID and
    publish OrderCompleted for it; an IllegalArgumentException (from the parse
    or from a subscriber) is logged and swallowed, anything else propagates. */
module AmqpAdapter {
  import opened Common
  import opened Events

  // ---------------------------------------------------------------------------
  // String.trim(): drop leading and trailing characters up to U+0020
  // ---------------------------------------------------------------------------

  predicate Blank(c: char) { c <= ' ' }

  /** The first index at or after `i` whose character is not blank (or |s|). */
  function SkipLeading(s: string, i: nat): (st: nat)
    requires i <= |s|
    ensures i <= st <= |s|
    ensures forall k :: i <= k < st ==> Blank(s[k])
    ensures st < |s| ==> !Blank(s[st])
    decreases |s| - i
  {
    if i < |s| && Blank(s[i]) then SkipLeading(s, i + 1) else i
  }

  /** The end of `s[st..len]` once trailing blanks are dropped. */
  function SkipTrailing(s: string, st: nat, len: nat): (end: nat)
    requires st <= len <= |s|
    ensures st <= end <= len
    ensures forall k :: end <= k < len ==> Blank(s[k])
    ensures st < end ==> !Blank(s[end - 1])
    decreases len
  {
    if st < len && Blank(s[len - 1]) then SkipTrailing(s, st, len - 1) else len
  }

  function Trim(s: string): (r: string)
    ensures |r| <= |s|
    ensures r != [] ==> !Blank(r[0]) && !Blank(r[|r| - 1])
  {
    var st := SkipLeading(s, 0);
    s[st..SkipTrailing(s, st, |s|)]
  }

  /** Trim's result is determined by where the non-blank core of `s` sits: any
      slice with only blanks outside it and non-blank ends is what trim returns. */
  lemma TrimIsTheCore(s: string, a: nat, b: nat)
    requires a <= b <= |s|
    requires forall k :: 0 <= k < a || b <= k < |s| ==> Blank(s[k])
    requires a < b ==> !Blank(s[a]) && !Blank(s[b - 1])
    ensures Trim(s) == s[a..b]
  {
    var st := SkipLeading(s, 0);
    var end := SkipTrailing(s, st, |s|);
    if a < b {
      assert st == a;
      assert end == b;
    } else {
      assert st == |s|;
    }
  }

  /** Surrounding blanks never change what trim returns. */
  lemma TrimIgnoresPadding(pre: string, s: string, post: string)
    requires forall k :: 0 <= k < |pre| ==> Blank(pre[k])
    requires forall k :: 0 <= k < |post| ==> Blank(post[k])
    ensures Trim(pre + s + post) == Trim(s)
  {
    var st := SkipLeading(s, 0);
    var end := SkipTrailing(s, st, |s|);
    var t := pre + s + post;
    var a, b := |pre| + st, |pre| + end;
    assert t[a..b] == s[st..end];
    forall k | 0 <= k < a || b <= k < |t|
      ensures Blank(t[k])
    {
      if k < |pre| {
        assert t[k] == pre[k];
      } else if k < |pre| + |s| {
        assert t[k] == s[k - |pre|];
      } else {
        assert t[k] == post[k - |pre| - |s|];
      }
    }
    TrimIsTheCore(t, a, b);
  }

  /** Trimming twice is trimming once. */
  lemma TrimIdempotent(s: string)
    ensures Trim(Trim(s)) == Trim(s)
  {
    var r := Trim(s);
    TrimIsTheCore(r, 0, |r|);
  }

  // ---------------------------------------------------------------------------
  // The adapter
  // ---------------------------------------------------------------------------

  /** What the adapter publishes for a parse result: OrderCompleted(id) when the
      payload is a UUID and no subscriber throws. */
  function Delivered(id: Option<Uuid>, fault: Option<Exception>): (s: seq<Event>)
    ensures |s| <= 1
    ensures s != [] ==> id.Some? && fault.None? && s == [OrderCompleted(id.value)]
  {
    if id.Some? && fault.None? then [OrderCompleted(id.value)] else []
  }

  /** What escapes onMessage: the catch clause only covers IllegalArgumentException. */
  function Escaping(id: Option<Uuid>, fault: Option<Exception>): (r: Outcome<Exception>)
    ensures r.Fail? ==> id.Some? && fault == Some(r.error) && !r.error.IllegalArgument?
  {
    if id.Some? && fault.Some? && !fault.value.IllegalArgument? then Fail(fault.value) else Pass
  }

  /** A payload that parses publishes exactly OrderCompleted with that id, unless a
      subscriber throws; one that does not parse publishes nothing and returns normally. */
  lemma PublishesParsedId(id: Option<Uuid>, fault: Option<Exception>)
    ensures Delivered(id, fault) == [] <==> id.None? || fault.Some?
    ensures id.Some? && fault.None? ==> Delivered(id, fault) == [OrderCompleted(id.value)]
    ensures id.None? ==> Escaping(id, fault) == Pass
  {
  }

  /** Only IllegalArgumentException is swallowed: any other exception a subscriber
      throws reaches the caller unchanged. */
  lemma OnlyIllegalArgumentIsCaught(id: Option<Uuid>, fault: Option<Exception>)
    ensures Escaping(id, fault).Fail? <==> id.Some? && fault.Some? && !fault.value.IllegalArgument?
    ensures Escaping(id, fault).Fail? ==> Escaping(id, fault).error == fault.value
  {
  }

  class InboundAmqpAdapter {
    const events: EventPublisher
    /** UUID.fromString: None where it throws IllegalArgumentException. */
    const fromString: string -> Option<Uuid>

    constructor (events: EventPublisher, fromString: string -> Option<Uuid>)
      ensures this.events == events && this.fromString == fromString
    {
      this.events := events;
      this.fromString := fromString;
    }

    method OnMessage(payload: string) returns (r: Outcome<Exception>)
      modifies events`published
      ensures var id := fromString(Trim(payload));
              events.published == old(events.published) + Delivered(id, events.fault) &&
              r == Escaping(id, events.fault)
    {
      var id := fromString(Trim(payload));
      if id.None? {
        return Pass;                      // not a UUID: logged and dropped
      }
      var published := events.Publish(OrderCompleted(id.value));
      if published.Fail? && !published.error.IllegalArgument? {
        return Fail(published.error);
      }
      return Pass;
    }
  }

  /** Blanks around a payload do not change what the adapter does with it. */
  lemma PaddedPayloadActsAlike(fromString: string -> Option<Uuid>, pre: string, payload: string, post: string)
    requires forall k :: 0 <= k < |pre| ==> Blank(pre[k])
    requires forall k :: 0 <= k < |post| ==> Blank(post[k])
    ensures fromString(Trim(pre + payload + post)) == fromString(Trim(payload))
  {
    TrimIgnoresPadding(pre, payload, post);
  }
}
