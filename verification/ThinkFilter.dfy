/** The printer's think-tag filter: tags change the colour of what follows and are not printed,
    and text that may still become a tag is held back until the next chunk. */
module ThinkFilter {
  type Text = seq<char>

  const OPEN: Text := "<think>"
  const CLOSE: Text := "</think>"
  const GREY: Text := "\U{001b}[90m"
  const PLAIN: Text := "\U{001b}[0m"
  const PENDING_MAX: nat := 16

  datatype Printer = Printer(useColor: bool, inThink: bool, colorOpen: bool, lastNewline: bool, out: Text)

  predicate HasPrefix(text: Text, tag: Text) {
    |text| >= |tag| && text[..|tag|] == tag
  }

  predicate IsPartial(text: Text, tag: Text) {
    |text| < |tag| && tag[..|text|] == text
  }

  /** Text that further input may complete to a tag. */
  predicate MayBecomeTag(text: Text) {
    text != [] && text[0] == '<' && (IsPartial(text, OPEN) || IsPartial(text, CLOSE))
  }

  function SetGrey(p: Printer): Printer {
    if p.useColor && !p.colorOpen then p.(out := p.out + GREY, colorOpen := true) else p
  }

  function ResetColor(p: Printer): Printer {
    if p.useColor && p.colorOpen then p.(out := p.out + PLAIN, colorOpen := false) else p
  }

  function Write(p: Printer, c: char): Printer {
    var q := if p.inThink then SetGrey(p) else p;
    q.(out := q.out + [c], lastNewline := c == '\n')
  }

  function EndThink(p: Printer): Printer {
    var q := ResetColor(p.(inThink := false));
    if q.lastNewline then q else q.(out := q.out + ['\n'], lastNewline := true)
  }

  datatype Step = Step(printer: Printer, rest: Text)

  /** What happens at the front of the text; nothing when it must be held back. */
  function Front(p: Printer, text: Text, finish: bool): (r: Step)
    requires text != []
    ensures |r.rest| < |text| || (r == Step(p, text) && !finish && MayBecomeTag(text))
  {
    if HasPrefix(text, OPEN) then Step(p.(inThink := true), text[|OPEN|..])
    else if HasPrefix(text, CLOSE) then Step(EndThink(p), text[|CLOSE|..])
    else if !finish && MayBecomeTag(text) then Step(p, text)
    else Step(Write(p, text[0]), text[1..])
  }

  /** A whole text: the printer afterwards and what is held back. */
  function Consume(p: Printer, text: Text, finish: bool): (r: Step)
    ensures r.rest != [] ==> !finish && MayBecomeTag(r.rest)
    decreases |text|
  {
    if text == [] then Step(p, [])
    else
      var s := Front(p, text, finish);
      if s.rest == text then s else Consume(s.printer, s.rest, finish)
  }

  /** Held-back text is a proper prefix of a tag, so it fits the buffer. */
  lemma HeldBackFits(p: Printer, text: Text, finish: bool)
    ensures var r := Consume(p, text, finish).rest;
            |r| < PENDING_MAX && (r == [] || IsPartial(r, OPEN) || IsPartial(r, CLOSE))
    ensures finish ==> Consume(p, text, finish).rest == []
  {
  }

  // ---- Chunks --------------------------------------------------------------

  /** More text behind does not change what is decided at the front. */
  lemma FrontExtends(p: Printer, a: Text, b: Text, finish: bool)
    requires a != [] && Front(p, a, false).rest != a
    ensures Front(p, a + b, finish).printer == Front(p, a, false).printer
    ensures Front(p, a + b, finish).rest == Front(p, a, false).rest + b
  {
    var t := a + b;
    PrefixExtends(a, b, OPEN);
    PrefixExtends(a, b, CLOSE);
    assert t[0] == a[0];
    if HasPrefix(a, OPEN) {
      assert t[|OPEN|..] == a[|OPEN|..] + b;
    } else if HasPrefix(a, CLOSE) {
      assert t[|CLOSE|..] == a[|CLOSE|..] + b;
    } else {
      assert t[1..] == a[1..] + b;
    }
  }

  lemma PrefixExtends(a: Text, b: Text, tag: Text)
    requires tag != []
    ensures HasPrefix(a, tag) ==> HasPrefix(a + b, tag)
    ensures !HasPrefix(a, tag) && HasPrefix(a + b, tag) ==> IsPartial(a, tag)
    ensures IsPartial(a + b, tag) ==> IsPartial(a, tag)
    ensures a != [] && (HasPrefix(a + b, tag) || IsPartial(a + b, tag)) ==> a[0] == tag[0]
  {
    var t := a + b;
    if HasPrefix(t, tag) {
      if |a| < |tag| {
        assert tag[..|a|] == t[..|tag|][..|a|] == t[..|a|] == a;
      } else {
        assert t[..|tag|] == a[..|tag|];
      }
      assert a != [] ==> a[0] == t[..|tag|][0];
    }
    if HasPrefix(a, tag) { assert t[..|tag|] == a[..|tag|]; }
    if IsPartial(t, tag) {
      assert tag[..|a|] == tag[..|t|][..|a|] == t[..|a|] == a;
      assert a != [] ==> a[0] == tag[..|t|][0];
    }
  }

  /** Text may be cut anywhere: what is held back of the first part is taken up by the second. */
  lemma {:induction false} ConsumeConcat(p: Printer, a: Text, b: Text, finish: bool)
    ensures var r := Consume(p, a, false); Consume(r.printer, r.rest + b, finish) == Consume(p, a + b, finish)
    decreases |a|
  {
    if a == [] {
      assert a + b == b && [] + b == b;
    } else {
      var s := Front(p, a, false);
      if s.rest != a {
        FrontExtends(p, a, b, finish);
        assert |(s.rest + b)| < |a + b|;
        ConsumeConcat(s.printer, s.rest, b, finish);
      }
    }
  }

  /** Feeding chunks one after the other, from held-back text on. */
  function Feed(p: Printer, pending: Text, chunks: seq<Text>): Step
    decreases |chunks|
  {
    if chunks == [] then Step(p, pending)
    else
      var s := Consume(p, pending + chunks[0], false);
      Feed(s.printer, s.rest, chunks[1..])
  }

  function Joined(chunks: seq<Text>): Text {
    if chunks == [] then [] else chunks[0] + Joined(chunks[1..])
  }

  function Finish(p: Printer, pending: Text): Printer {
    ResetColor(Consume(p, pending, true).printer)
  }

  lemma JoinedTail(pending: Text, chunks: seq<Text>)
    requires chunks != []
    ensures pending + chunks[0] + Joined(chunks[1..]) == pending + Joined(chunks)
  {
    var head, tail := chunks[0], Joined(chunks[1..]);
    assert Joined(chunks) == head + tail;
    assert pending + head + tail == pending + (head + tail);
  }

  lemma {:induction false} FeedJoined(p: Printer, pending: Text, chunks: seq<Text>)
    ensures var r := Feed(p, pending, chunks); Consume(r.printer, r.rest, true) == Consume(p, pending + Joined(chunks), true)
    decreases |chunks|
  {
    if chunks == [] {
      assert pending + [] == pending;
    } else {
      var s := Consume(p, pending + chunks[0], false);
      FeedJoined(s.printer, s.rest, chunks[1..]);
      ConsumeConcat(p, pending + chunks[0], Joined(chunks[1..]), true);
      JoinedTail(pending, chunks);
    }
  }

  /** Main result. However a text is cut into chunks, feeding them and finishing prints the same
      bytes and leaves the same printer as the whole text at once, with nothing pending and no
      colour left open. */
  lemma ChunkInvariance(p: Printer, a: seq<Text>, b: seq<Text>)
    requires Joined(a) == Joined(b)
    ensures var x, y := Feed(p, [], a), Feed(p, [], b); Finish(x.printer, x.rest) == Finish(y.printer, y.rest)
    ensures var x := Feed(p, [], a); Finish(x.printer, x.rest) == Finish(p, Joined(a))
    ensures p.useColor ==> !Finish(p, Joined(a)).colorOpen
  {
    hide Consume, Feed, Joined;
    FeedJoined(p, [], a);
    FeedJoined(p, [], b);
    assert [] + Joined(a) == Joined(a) && [] + Joined(b) == Joined(b);
    ColorKept(p, Joined(a), true);
  }

  lemma {:induction false} ColorKept(p: Printer, text: Text, finish: bool)
    ensures Consume(p, text, finish).printer.useColor == p.useColor
    decreases |text|
  {
    if text != [] {
      var s := Front(p, text, finish);
      if s.rest != text { ColorKept(s.printer, s.rest, finish); }
    }
  }

  /** The printer after text that holds no tag. */
  function Printed(p: Printer, text: Text): Printer {
    if text == [] then p
    else
      var q := if p.inThink then SetGrey(p) else p;
      q.(out := q.out + text, lastNewline := text[|text| - 1] == '\n')
  }

  /** Text in which no tag can begin is printed as it is, grey inside a think block. */
  lemma {:induction false} PlainTextPrinted(p: Printer, text: Text)
    requires '<' !in text
    ensures Consume(p, text, false) == Step(Printed(p, text), [])
    decreases |text|
  {
    if text != [] {
      assert text[0] != '<' && OPEN[0] == '<' && CLOSE[0] == '<';
      assert !HasPrefix(text, OPEN) && !HasPrefix(text, CLOSE) by {
        PrefixExtends(text, [], OPEN);
        PrefixExtends(text, [], CLOSE);
        assert text + [] == text;
      }
      var q := Write(p, text[0]);
      PlainTextPrinted(q, text[1..]);
      assert q.out + text[1..] == (if p.inThink then SetGrey(p) else p).out + text;
    }
  }

  lemma TagTaken(p: Printer, text: Text)
    ensures Consume(p, OPEN + text, false) == Consume(p.(inThink := true), text, false)
    ensures Consume(p, CLOSE + text, false) == Consume(EndThink(p), text, false)
  {
    var x, y := OPEN + text, CLOSE + text;
    assert x[..|OPEN|] == OPEN && x[|OPEN|..] == text;
    assert y[..|CLOSE|] == CLOSE && y[|CLOSE|..] == text;
    assert x[1] == 't' && y[1] == '/';
    assert OPEN[1] == 't' && y[..|OPEN|][1] == y[1];
    assert !HasPrefix(y, OPEN);
  }

  lemma AfterText(p: Printer, text: Text, rest: Text)
    requires '<' !in text
    ensures Consume(p, text + rest, false) == Consume(Printed(p, text), rest, false)
  {
    ConsumeConcat(p, text, rest, false);
    PlainTextPrinted(p, text);
    assert [] + rest == rest;
  }

  lemma ThinkBlockConsumed(p: Printer, thought: Text, answer: Text, inner: Text, tail: Text)
    requires '<' !in thought && '<' !in answer && tail == CLOSE + answer && inner == thought + tail
    ensures Consume(p, OPEN + inner, false) == Step(Printed(EndThink(Printed(p.(inThink := true), thought)), answer), [])
  {
    var q := p.(inThink := true);
    TagTaken(p, inner);
    AfterText(q, thought, tail);
    TagTaken(Printed(q, thought), answer);
    PlainTextPrinted(EndThink(Printed(q, thought)), answer);
  }

  function Colored(useColor: bool, text: Text): Text {
    if useColor then GREY + text + PLAIN else text
  }

  function LineEnd(text: Text): Text
    requires text != []
  {
    if text[|text| - 1] == '\n' then [] else ['\n']
  }

  lemma Associate(a: Text, b: Text, c: Text, d: Text)
    ensures a + b + c + d == a + (b + c + d)
  {
  }

  lemma ThoughtEnded(p: Printer, thought: Text)
    requires thought != [] && p.inThink && !p.colorOpen
    ensures var e := EndThink(Printed(p, thought));
            && e.out == p.out + Colored(p.useColor, thought) + LineEnd(thought)
            && !e.inThink && !e.colorOpen && e.lastNewline && e.useColor == p.useColor
  {
    Associate(p.out, GREY, thought, PLAIN);
    var colored := p.out + Colored(p.useColor, thought);
    assert colored + [] == colored;
  }

  /** What a think block prints: the tags go, the thought is grey, and the answer starts on its own line. */
  lemma ThinkBlockPrinted(p: Printer, thought: Text, answer: Text)
    requires '<' !in thought && '<' !in answer && thought != [] && !p.inThink && !p.colorOpen
    ensures var r := Consume(p, OPEN + (thought + (CLOSE + answer)), false);
            && r.rest == [] && !r.printer.inThink && !r.printer.colorOpen
            && r.printer.out == p.out + Colored(p.useColor, thought) + LineEnd(thought) + answer
  {
    ThinkBlockConsumed(p, thought, answer, thought + (CLOSE + answer), CLOSE + answer);
    ThoughtEnded(p.(inThink := true), thought);
    AnswerPrinted(EndThink(Printed(p.(inThink := true), thought)), answer);
  }

  lemma AnswerPrinted(e: Printer, answer: Text)
    requires !e.inThink
    ensures Printed(e, answer).out == e.out + answer && !Printed(e, answer).inThink && Printed(e, answer).colorOpen == e.colorOpen
  {
    assert e.out + [] == e.out;
  }

  // ---- The printer ---------------------------------------------------------

  class TokenPrinter {
    const useColor: bool
    var inThink: bool
    var colorOpen: bool
    var lastNewline: bool
    var out: Text
    const pending: array<char>
    var pendingLen: nat

    function View(): Printer
      reads this
    {
      Printer(useColor, inThink, colorOpen, lastNewline, out)
    }

    predicate Valid()
      reads this
    {
      pending.Length == PENDING_MAX && pendingLen <= PENDING_MAX
    }

    function Pending(): Text
      reads this, pending
      requires Valid()
    {
      pending[..pendingLen]
    }

    constructor (useColor: bool)
      ensures Valid() && Pending() == [] && View() == Printer(useColor, false, false, true, [])
    {
      this.useColor := useColor;
      inThink, colorOpen, lastNewline, out, pendingLen := false, false, true, [], 0;
      pending := new char[PENDING_MAX](_ => ' ');
    }

    method ResetColorIfOpen()
      modifies this
      ensures View() == ResetColor(old(View())) && pendingLen == old(pendingLen)
    {
      if useColor && colorOpen {
        out := out + PLAIN;
        colorOpen := false;
      }
    }

    method WriteChar(c: char)
      modifies this
      ensures View() == Write(old(View()), c) && pendingLen == old(pendingLen)
    {
      if inThink && useColor && !colorOpen {
        out := out + GREY;
        colorOpen := true;
      }
      out := out + [c];
      lastNewline := c == '\n';
    }

    method LeaveThink()
      modifies this
      ensures View() == EndThink(old(View())) && pendingLen == old(pendingLen)
    {
      inThink := false;
      ResetColorIfOpen();
      if !lastNewline {
        out := out + ['\n'];
        lastNewline := true;
      }
    }

    /** Holds back the rest of a chunk. */
    method Hold(cur: Text)
      requires Valid() && |cur| < PENDING_MAX
      modifies this`pendingLen, pending
      ensures Valid() && Pending() == cur
    {
      forall k | 0 <= k < |cur| {
        pending[k] := cur[k];
      }
      pendingLen := |cur|;
    }

    /** One pass of the loop: how much of the text it uses up. */
    method TakeFront(cur: Text, finish: bool) returns (used: nat)
      requires cur != []
      modifies this
      ensures pendingLen == old(pendingLen) && used <= |cur|
      ensures Step(View(), cur[used..]) == Front(old(View()), cur, finish)
      ensures used == 0 ==> MayBecomeTag(cur) && Front(old(View()), cur, finish) == Step(View(), cur)
    {
      if HasPrefix(cur, OPEN) {
        inThink := true;
        return |OPEN|;
      }
      if HasPrefix(cur, CLOSE) {
        LeaveThink();
        return |CLOSE|;
      }
      if !finish && cur[0] == '<' && (IsPartial(cur, OPEN) || IsPartial(cur, CLOSE)) {
        assert cur[0..] == cur;
        return 0;
      }
      WriteChar(cur[0]);
      return 1;
    }

    method Process(text: Text, finish: bool)
      requires Valid()
      modifies this, pending
      ensures Valid() && Step(View(), Pending()) == Consume(old(View()), old(Pending()) + text, finish)
    {
      var buf := pending[..pendingLen] + text;
      ghost var p, rest := View(), buf;
      pendingLen := 0;
      var i: nat := 0;
      while i < |buf|
        invariant i <= |buf| && pendingLen == 0 && rest == buf[i..]
        invariant Consume(View(), rest, finish) == Consume(p, buf, finish)
      {
        var used := TakeFront(buf[i..], finish);
        if used == 0 {
          Hold(buf[i..]);
          return;
        }
        assert rest[used..] == buf[i + used..];
        rest := rest[used..];
        i := i + used;
      }
    }

    method FinishText()
      requires Valid()
      modifies this, pending
      ensures Valid() && Pending() == [] && View() == Finish(old(View()), old(Pending()))
    {
      ghost var held := Pending();
      assert held + [] == held;
      Process([], true);
      ResetColorIfOpen();
    }
  }
}
