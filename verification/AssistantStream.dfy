/**
 The think filter as the object whose buffer and dropping flag every token updates, for think and reasoning tags.
 */
module AssistantStream {
  import opened TextScan
  import opened ThinkFilters
  import opened ThinkTags
  import opened ThinkBatch
  import opened ThinkExact

  class ThinkFilter {
    const tags: Tags
    var buf: string
    var dropping: bool

    ghost predicate Valid()
      reads this
    {
      tags.Lawful() && Settled(tags, buf, dropping)
    }

    constructor (chars: CharTables)
      requires chars.Standard()
      ensures Valid() && tags == Language(chars) && buf == "" && !dropping
    {
      tags, buf, dropping := Language(chars), "", false;
    }

    /** One turn of the push loop on the text s from the cursor on: what it puts out and passes over. */
    method Advance(s: string) returns (piece: string, used: nat, stop: bool)
      requires tags.Lawful() && |s| > 0
      modifies this`dropping
      ensures used <= |s| && (!stop ==> used > 0)
      ensures Is(Drain(tags, s, old(dropping)), piece,
                 if stop then Drained("", s[used..], dropping) else Drain(tags, s[used..], dropping))
    {
      piece, used, stop := "", 0, true;
      if dropping {
        var c := FindFirst(tags.close, s);
        PassDropped(tags, s);
        if c < |s| {
          used, stop := c + tags.close(s[c..]), false;
          dropping := false;
        }
      } else {
        var o := FindFirst(tags.open, s);
        PassVisible(tags, s);
        if o == |s| {
          used := tags.hold(s);
          piece := s[..used];
        } else {
          piece, used, stop := s[..o], o + tags.open(s[o..]), false;
          dropping := true;
        }
      }
    }

    method Push(text: string) returns (visible: string)
      requires Valid()
      modifies this`buf, this`dropping
      ensures Valid()
      ensures Drained(visible, buf, dropping) == ThinkFilters.Push(tags, old(buf), old(dropping), text)
    {
      if |text| == 0 {
        return "";
      }
      buf := buf + text;
      var all, out, cursor, stop := buf, "", 0, false;
      ghost var whole := Drain(tags, all, dropping);
      DrainSettles(tags, all, dropping);
      assert all[0..] == all;
      while cursor < |all| && !stop
        invariant 0 <= cursor <= |all|
        invariant Is(whole, out, if stop then Drained("", all[cursor..], dropping)
                                 else Drain(tags, all[cursor..], dropping))
        decreases |all| - cursor, !stop
      {
        ghost var s, before := all[cursor..], Drain(tags, all[cursor..], dropping);
        var piece, used;
        piece, used, stop := Advance(all[cursor..]);
        cursor := cursor + used;
        assert all[cursor..] == s[used..];
        IsJoin(whole, out, before, piece,
               if stop then Drained("", all[cursor..], dropping) else Drain(tags, all[cursor..], dropping));
        out := out + piece;
      }
      assert out + "" == out;
      buf := all[cursor..];
      visible := Remove(tags.stray, out);
    }
  }

  lemma {:induction false} PassDropped(g: Tags, s: string)
    requires g.Lawful() && |s| > 0
    ensures var c, r := FindFirst(g.close, s), Drain(g, s, true);
            if c == |s| then Is(r, "", Drained("", s[0..], true))
            else
              var e := c + g.close(s[c..]);
              0 < e <= |s| && Is(r, "", Drain(g, s[e..], false))
  {
    if Dropped(g, s) > 0 { DrainDropped(g, s); }
    assert s[0..] == s;
    assert "" + Drain(g, s, true).out == Drain(g, s, true).out;
  }

  lemma {:induction false} PassVisible(g: Tags, s: string)
    requires g.Lawful() && |s| > 0
    ensures var o, r := FindFirst(g.open, s), Drain(g, s, false);
            if o == |s| then
              g.hold(s) <= |s| && Is(r, s[..g.hold(s)], Drained("", s[g.hold(s)..], false))
            else
              var e := o + g.open(s[o..]);
              0 < e <= |s| && Is(r, s[..o], Drain(g, s[e..], true))
  {
    if FindFirst(g.open, s) == |s| {
      DrainAll(g, s);
      assert s[..g.hold(s)] + "" == s[..g.hold(s)];
    } else {
      DrainStep(g, s);
    }
  }

  /** Every cutting of a stream gives the visible text and the state of one push if and only if no think
      or reasoning tag that is taken or deleted holds a '<' after its first character. */
  lemma {:induction false} ChunksDoNotMatter(chars: CharTables, s: string)
    requires chars.Standard()
    ensures (forall chunks | Flatten(chunks) == s ::
               PushAll(Language(chars), "", false, chunks) == ThinkFilters.Push(Language(chars), "", false, s))
       <==> Neat(Language(chars), s, false)
  {
    InvarianceIsExact(Language(chars), s);
  }

  /** Of a stream with one tag name every cutting shows the stripped text if and only if it is neat and no
      text it puts out runs into an unclosed tag. */
  lemma {:induction false} ShownAsStripped(chars: CharTables, s: string)
    requires chars.Standard() && OneName(Language(chars), s)
    ensures (forall chunks | Flatten(chunks) == s :: Shown(PushAll(Language(chars), "", false, chunks)) == Strip(Language(chars), s))
       <==> Neat(Language(chars), s, false) && Unjoined(Language(chars), s)
  {
    OneNamePairs(Language(chars), s);
    BatchIsExact(Language(chars), s);
  }

  /** Tables that keep letters apart and count the blank as a word boundary. */
  ghost predicate PlainTables(x: CharTables) {
    x.Standard() && !x.word(' ') && x.Reads("think", "think")
  }

  /** One such stream: cut inside a tag that holds another '<', the open tag is put out as text. */
  lemma {:induction false} CutInsideTag(chars: CharTables)
    requires PlainTables(chars)
    ensures var g := Language(chars);
            && Push(g, "", false, "<think <b>").out == ""
            && Push(g, "", false, "<think <").out == "<think "
            && !Neat(g, "<think <b>", false)
  {
    UncutTag(chars);
    CutTag(chars);
    UnneatTag(chars);
  }

  lemma {:induction false} WholeTag(x: CharTables)
    requires PlainTables(x)
    ensures x.OpenLen("<think <b>") == 10
    ensures FindFirst(x.OpenLen, "<think <b>") == 0
  {
    var s := "<think <b>";
    assert s[1..] == "think <b>";
    assert x.Reads(s[1..], "think");
    assert s[1..][5..] == " <b>";
    var w := " <b>";
    assert forall k | 0 <= k < 3 :: w[k] != '>';
  }

  lemma {:induction false} UncutTag(chars: CharTables)
    requires PlainTables(chars)
    ensures Push(Language(chars), "", false, "<think <b>").out == ""
  {
    var g, u := Language(chars), "<think <b>";
    WholeTag(chars);
    assert u[0..] == u && u[..0] == "" && u[10..] == "" && "" + u == u;
    DrainStep(g, u);
  }

  lemma {:induction false} CutTag(chars: CharTables)
    requires PlainTables(chars)
    ensures Push(Language(chars), "", false, "<think <").out == "<think "
  {
    NoGtPush(Language(chars), "<think ", "<");
    assert "<think " + "<" == "<think <";
  }

  /** Text without '>' is put out up to its last '<'. */
  lemma {:induction false} NoGtPush(g: Tags, p: string, v: string)
    requires g.Lawful() && '>' !in p + v && |v| > 0 && v[0] == '<' && '<' !in v[1..]
    ensures Push(g, "", false, p + v).out == p
  {
    var a := p + v;
    NoGtNoTags(g, a);
    assert a[|p|..] == v && a[|p| + 1..] == v[1..] && a[..|p|] == p && "" + a == a;
    HeldAt(g, a, |p|);
    DrainAll(g, a);
    assert forall k | 0 <= k < |p| :: p[k] == a[k];
    NoGtNoTags(g, p);
  }

  lemma {:induction false} UnneatTag(chars: CharTables)
    requires PlainTables(chars)
    ensures !Neat(Language(chars), "<think <b>", false)
  {
    var g, u := Language(chars), "<think <b>";
    WholeTag(chars);
    assert u[0..] == u;
    assert u[1..10][6] == '<';
  }

  // ----- A neat stream that is not shown as stripped -----

  const TAG := "<think >"
  const CLOSE := "</think>"
  const REST := "ink " + TAG

  /** A block splits a tag name, and the second half meets a tag that nothing closes. */
  const SPLIT := "<th" + (TAG + (CLOSE + REST))

  /** Neatness alone is not enough for the batch: the stream puts the split head out, the batch strips it
      with the tag it runs into. */
  lemma {:induction false} SplitHead(chars: CharTables)
    requires PlainTables(chars)
    ensures var g := Language(chars);
            Neat(g, SPLIT, false) && Paired(g, SPLIT) && !Unjoined(g, SPLIT)
  {
    SecondHalf(chars);
    SplitParts(chars);
    JoinedHead(chars);
    SplitBy(Language(chars), "<th", TAG, CLOSE, REST, "ink ");
  }

  lemma {:induction false} SplitParts(chars: CharTables)
    requires PlainTables(chars)
    ensures BlockAfter(Language(chars), "<th", TAG, CLOSE, REST)
    ensures NeatScan(Language(chars).stray, "<th", "ink ")
  {
    FirstHalf(chars);
    CloseFirst(chars);
    SameThink(chars);
    TagTail();
    NoGtScan(Language(chars), "<th", "ink ");
  }

  /** After p a tag opens a block that close ends with the same name. */
  ghost predicate BlockAfter(g: Tags, p: string, tag: string, close: string, rest: string)
    requires g.Lawful()
  {
    && |tag| > 0 && |close| > 0 && '<' !in tag[1..]
    && FindFirst(g.open, p + (tag + (close + rest))) == |p|
    && Stretch(g, p + (tag + (close + rest))) == |p| + |tag|
    && Dropped(g, close + rest) == |close| && FindFirst(g.close, close + rest) == 0
    && g.same(tag + (close + rest), close + rest)
  }

  /** A block between the two halves of a tag name, the second of which meets an unclosed tag. */
  lemma {:induction false} SplitBy(g: Tags, p: string, tag: string, close: string, rest: string, half: string)
    requires g.Lawful() && BlockAfter(g, p, tag, close, rest)
    requires Drain(g, rest, false).out == half && Unclosed(g, rest) == tag && Neat(g, rest, false) && Paired(g, rest)
    requires NeatScan(g.stray, p, half) && |p| > 0 && FindFirst(g.open, (p + half) + tag) == 0
    ensures var s := p + (tag + (close + rest));
            Neat(g, s, false) && Paired(g, s) && !Unjoined(g, s)
  {
    BlockThen(g, p, tag, close, rest);
  }

  lemma {:induction false} JoinedHead(chars: CharTables)
    requires PlainTables(chars)
    ensures FindFirst(Language(chars).open, ("<th" + "ink ") + TAG) == 0
  {
    var s := ("<th" + "ink ") + TAG;
    assert s[..7] == "<think " && s[14] == '>';
    TagReads(chars, s);
  }

  lemma {:induction false} TagTail()
    ensures TAG[1..] == "think >" && '<' !in TAG[1..] && |TAG| == 8 && |CLOSE| == 8 && |REST| == 12
  {}

  /** A stretch, a block and the rest of a stream. */
  lemma {:induction false} BlockThen(g: Tags, p: string, tag: string, close: string, rest: string)
    requires g.Lawful() && BlockAfter(g, p, tag, close, rest)
    requires NeatScan(g.stray, p, Drain(g, rest, false).out) && Neat(g, rest, false) && Paired(g, rest)
    ensures var s := p + (tag + (close + rest));
            && Neat(g, s, false) && Paired(g, s) && Unclosed(g, s) == Unclosed(g, rest)
            && Drain(g, s, false).out == p + Drain(g, rest, false).out
  {
    var body := close + rest;
    var s := p + (tag + body);
    BlockParts(p, tag, close, rest);
    DrainDropped(g, body);
    DrainStep(g, s);
  }

  lemma {:induction false} BlockParts(p: string, tag: string, close: string, rest: string)
    requires |tag| > 0
    ensures var s, body := p + (tag + (close + rest)), close + rest;
            && s[|p| + |tag|..] == body && body[|close|..] == rest && body[0..] == body
            && s[..|p|] == p && s[|p|..] == tag + body && s[|p| + 1..|p| + |tag|] == tag[1..]
  {}

  /** A stretch and a tag that nothing follows. */
  lemma {:induction false} TagLast(g: Tags, p: string, tag: string)
    requires g.Lawful() && |tag| > 0 && FindFirst(g.open, p + tag) == |p| && Stretch(g, p + tag) == |p + tag|
    requires '<' !in tag[1..] && NeatScan(g.stray, p, "")
    ensures var s := p + tag;
            && Neat(g, s, false) && Paired(g, s) && Unclosed(g, s) == tag && Drain(g, s, false).out == p
  {
    var s := p + tag;
    assert s[|s|..] == "" && s[..|p|] == p && s[|p|..] == tag && s[|p| + 1..|s|] == tag[1..];
    DrainStep(g, s);
    assert p + "" == p;
  }

  lemma {:induction false} TagReads(x: CharTables, s: string)
    requires PlainTables(x) && |s| > 7 && s[..7] == "<think " && '>' in s
    ensures x.OpenLen(s) > 0
    ensures s[7] == '>' ==> x.OpenLen(s) == 8
  {
    var b := s[1..];
    assert forall k | 0 <= k < 7 :: s[k] == "<think "[k];
    assert forall k | 0 <= k < 5 :: b[k] == "think"[k];
    assert b[5] == ' ';
    var w := b[5..];
    var i :| 0 <= i < |s| && s[i] == '>';
    assert forall k | 0 <= k < |w| :: w[k] == s[k + 6];
    assert w[i - 6] == '>';
    assert w[0] == ' ' && (s[7] == '>' ==> w[1] == '>');
  }

  lemma {:induction false} NoGtScan(g: Tags, p: string, q: string)
    requires g.Lawful() && '>' !in p + q
    ensures NeatScan(g.stray, p, q)
    decreases |p|
  {
    if |p| > 0 {
      g.StrayLaw(p + q, "");
      assert (p + q)[1..] == p[1..] + q;
      NoGtScan(g, p[1..], q);
    }
  }

  lemma {:induction false} SecondHalf(x: CharTables)
    requires PlainTables(x)
    ensures var g := Language(x);
            && Drain(g, REST, false).out == "ink " && Unclosed(g, REST) == TAG
            && Neat(g, REST, false) && Paired(g, REST)
  {
    RestOpens(x);
    NoGtScan(Language(x), "ink ", "");
    TagTail();
    TagLast(Language(x), "ink ", TAG);
  }

  lemma {:induction false} RestOpens(x: CharTables)
    requires PlainTables(x)
    ensures FindFirst(Language(x).open, REST) == 4 && Stretch(Language(x), REST) == 12
  {
    var g := Language(x);
    assert REST[4..] == TAG;
    TagReads(x, TAG);
    forall k | 0 <= k < 4 ensures g.open(REST[k..]) == 0 {}
    FindFirstUnique(g.open, REST, 4);
  }

  lemma {:induction false} FirstHalf(x: CharTables)
    requires PlainTables(x)
    ensures FindFirst(Language(x).open, SPLIT) == 3 && Stretch(Language(x), SPLIT) == 11
  {
    var g := Language(x);
    assert SPLIT[3..] == TAG + (CLOSE + REST);
    TagReads(x, SPLIT[3..]);
    NoNameAt(x, SPLIT);
    forall k | 0 <= k < 3 ensures g.open(SPLIT[k..]) == 0 { assert SPLIT[0..] == SPLIT; }
    FindFirstUnique(g.open, SPLIT, 3);
  }

  lemma {:induction false} NoNameAt(x: CharTables, s: string)
    requires PlainTables(x) && |s| > 3 && s[1] == 't' && s[3] == '<'
    ensures x.OpenLen(s) == 0
  {
    var b := s[1..];
    assert b[0] == 't' && b[2] == '<';
    assert "think"[0] == 't' && "think"[2] == 'i' && "reasoning"[0] == 'r';
    assert x.fold("think"[0]) == 't';
  }

  lemma {:induction false} SameThink(x: CharTables)
    requires PlainTables(x)
    ensures x.SameName(SPLIT[3..], CLOSE + REST)
  {
    var a, b := SPLIT[3..][1..], (CLOSE + REST)[2..];
    assert forall k | 0 <= k < 5 :: a[k] == "think"[k] == b[k];
  }

  lemma {:induction false} CloseFirst(x: CharTables)
    requires PlainTables(x)
    ensures var g, s := Language(x), CLOSE + REST;
            FindFirst(g.close, s) == 0 && Dropped(g, s) == 8 && s[8..] == REST && s[0..] == s
  {
    var s := CLOSE + REST;
    var b := s[2..];
    assert forall k | 0 <= k < 5 :: b[k] == "think"[k];
    var w := b[5..];
    assert w[0] == '>' && s[7] == '>' && s[2 + 5..] == w;
    assert x.SpaceRun(w) == 0;
    assert s[0..] == s;
  }
}
