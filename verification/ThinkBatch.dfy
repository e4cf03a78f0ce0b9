/**
 The batch counterpart of the think filter, and the proof that streaming agrees with it.
 */
module ThinkBatch {
  import opened TextScan
  import opened ThinkFilters

  /** The close tags that end the block opened by the tag at the start of s. */
  function EndOf(g: Tags, s: string): Matcher {
    (w: string) => EndLen(g, s, w)
  }

  function EndLen(g: Tags, s: string, w: string): nat {
    if g.same(s, w) then g.close(w) else 0
  }

  /** An open tag, the shortest text after it, and a close tag of the same name. */
  function BlockLen(g: Tags, s: string): (n: nat)
    requires g.Lawful()
    ensures n <= |s|
  {
    g.OpenLaw(s, "");
    if g.open(s) == 0 then 0
    else
      var body := s[g.open(s)..];
      var c := FindFirst(EndOf(g, s), body);
      if c == |body| then 0
      else g.CloseLaw(body[c..], ""); g.open(s) + c + EndOf(g, s)(body[c..])
  }

  function Blocks(g: Tags): Matcher
    requires g.Lawful()
  {
    (s: string) => BlockLen(g, s)
  }

  /** Whole blocks go first, then everything from an open tag on, then stray tags. */
  function Strip(g: Tags, s: string): string
    requires g.Lawful()
  {
    var t := Remove(Blocks(g), s);
    Remove(g.stray, t[..FindFirst(g.open, t)])
  }

  /** Every block the stream drops is closed by a tag of its own name. */
  ghost predicate Paired(g: Tags, s: string)
    requires g.Lawful()
    decreases |s|
  {
    var o := FindFirst(g.open, s);
    o < |s| ==>
      var body := s[Stretch(g, s)..];
      Dropped(g, body) > 0 ==>
        g.same(s[o..], body[FindFirst(g.close, body)..]) && Paired(g, body[Dropped(g, body)..])
  }

  lemma {:induction false} BlockAt(g: Tags, s: string)
    requires g.Lawful() && FindFirst(g.open, s) < |s|
    requires var body := s[Stretch(g, s)..];
             Dropped(g, body) > 0 && g.same(s[FindFirst(g.open, s)..], body[FindFirst(g.close, body)..])
    ensures BlockLen(g, s[FindFirst(g.open, s)..])
            == Stretch(g, s) - FindFirst(g.open, s) + Dropped(g, s[Stretch(g, s)..])
  {
    var o := FindFirst(g.open, s);
    var body, m := s[Stretch(g, s)..], EndOf(g, s[o..]);
    assert s[o..][g.open(s[o..])..] == body;
    var c := FindFirst(g.close, body);
    FindFirstIs(g.close, body);
    forall k | 0 <= k < c ensures m(body[k..]) == 0 { assert g.close(body[k..]) == 0; }
    FindFirstUnique(m, body, c);
  }

  lemma {:induction false} NoBlockBefore(g: Tags, s: string, o: nat)
    requires g.Lawful() && o <= FindFirst(g.open, s)
    ensures NoneBefore(Blocks(g), s, o)
  {
    FindFirstIs(g.open, s);
    forall k | 0 <= k < o ensures Blocks(g)(s[k..]) == 0 { assert g.open(s[k..]) == 0; }
  }

  lemma {:induction false} NoCloseNoBlock(g: Tags, w: string)
    requires g.Lawful() && g.OpenShape(w) && NoneBefore(g.close, w[g.open(w)..], |w| - g.open(w))
    ensures BlockLen(g, w) == 0
  {
    var body, m := w[g.open(w)..], EndOf(g, w);
    forall j | 0 <= j < |body| ensures m(body[j..]) == 0 { assert g.close(body[j..]) == 0; }
    FindFirstUnique(m, body, |body|);
  }

  /** An open tag that nothing closes leaves no block in the text at all. */
  lemma {:induction false} NoBlockUnclosed(g: Tags, s: string)
    requires g.Lawful() && FindFirst(g.open, s) < |s| && '<' !in s[FindFirst(g.open, s) + 1..Stretch(g, s)]
    requires Dropped(g, s[Stretch(g, s)..]) == 0
    ensures NoneBefore(Blocks(g), s, |s|)
  {
    var o, e := FindFirst(g.open, s), Stretch(g, s);
    var body := s[e..];
    FindFirstIs(g.close, body);
    NoBlockBefore(g, s, o);
    assert Blocks(g)(s[0..]) == 0 || o == 0;
    forall k | 0 <= k < |s| ensures Blocks(g)(s[k..]) == 0 {
      var w := s[k..];
      if k >= o && g.open(w) > 0 {
        OpenOnlyAt(g, s, k);
        g.OpenLaw(w, "");
        var n := k + g.open(w);
        assert w[g.open(w)..] == s[n..];
        forall j | 0 <= j < |s| - n ensures g.close(s[n..][j..]) == 0 {
          assert s[n..][j..] == body[n + j - e..];
          assert g.close(body[n + j - e..]) == 0;
        }
        NoCloseNoBlock(g, w);
      } else if k < o {
        assert Blocks(g)(s[k..]) == 0;
      }
    }
  }

  /** Inside a neat open tag no other tag opens. */
  lemma {:induction false} OpenOnlyAt(g: Tags, s: string, k: nat)
    requires g.Lawful() && FindFirst(g.open, s) < |s| && '<' !in s[FindFirst(g.open, s) + 1..Stretch(g, s)]
    requires FindFirst(g.open, s) <= k < |s| && g.open(s[k..]) > 0
    ensures k + g.open(s[k..]) >= Stretch(g, s)
  {
    var o, e := FindFirst(g.open, s), Stretch(g, s);
    OpenEnds(g, s[k..]);
    assert s[k..][0] == s[k];
    forall i | o < i < e ensures s[i] != '<' { assert s[i] == s[o + 1..e][i - o - 1]; }
  }

  // ----- What is left when the blocks are gone -----

  /** What a reader sees when the stream ends: the visible text and the held tail. */
  function Shown(d: Drained): string {
    d.out + if d.dropping then "" else d.rest
  }

  /** The open tag that nothing closes, and what follows it. */
  function Unclosed(g: Tags, s: string): string
    requires g.Lawful()
    decreases |s|
  {
    var o := FindFirst(g.open, s);
    if o == |s| then ""
    else
      StretchPast(g, s);
      var body := s[Stretch(g, s)..];
      if Dropped(g, body) == 0 then s[o..] else Unclosed(g, body[Dropped(g, body)..])
  }

  /** No text that is put out runs into the unclosed tag and makes one tag with it. */
  predicate Unjoined(g: Tags, s: string)
    requires g.Lawful()
  {
    var out := Drain(g, s, false).out;
    FindFirst(g.open, out + Unclosed(g, s)) == |out|
  }

  /** Deleting the blocks leaves what streaming puts out and then the tail it keeps, from its tag on. */
  ghost predicate Leaves(g: Tags, s: string)
    requires g.Lawful()
  {
    var r, w := Drain(g, s, false), Unclosed(g, s);
    && Remove(Blocks(g), s) == r.out + (if r.dropping then w else r.rest)
    && (if r.dropping then |w| > 0 && g.open(w) > 0 else w == "")
  }

  lemma {:induction false} RemoveBlocks(g: Tags, s: string)
    requires g.Lawful() && Neat(g, s, false) && Paired(g, s)
    ensures Leaves(g, s)
    decreases |s|
  {
    if FindFirst(g.open, s) == |s| {
      LeavesHeld(g, s);
    } else {
      StretchPast(g, s);
      NeatTag(g, s);
      var body := s[Stretch(g, s)..];
      if Dropped(g, body) == 0 {
        LeavesUnclosed(g, s);
      } else {
        RemoveBlocks(g, body[Dropped(g, body)..]);
        LeavesBlock(g, s);
      }
    }
  }

  lemma {:induction false} LeavesHeld(g: Tags, s: string)
    requires g.Lawful() && FindFirst(g.open, s) == |s|
    ensures Leaves(g, s)
  {
    DrainAll(g, s);
    NoBlockBefore(g, s, |s|);
    RemoveNothing(Blocks(g), s);
    assert s == s[..g.hold(s)] + s[g.hold(s)..];
  }

  lemma {:induction false} LeavesUnclosed(g: Tags, s: string)
    requires g.Lawful() && FindFirst(g.open, s) < |s| && '<' !in s[FindFirst(g.open, s) + 1..Stretch(g, s)]
    requires Dropped(g, s[Stretch(g, s)..]) == 0
    ensures Leaves(g, s)
  {
    var o := FindFirst(g.open, s);
    FindFirstIs(g.open, s);
    DrainStep(g, s);
    NoBlockUnclosed(g, s);
    RemoveNothing(Blocks(g), s);
    assert Drain(g, s[Stretch(g, s)..], true).out == "";
    assert s == s[..o] + "" + s[o..];
  }

  lemma {:induction false} LeavesBlock(g: Tags, s: string)
    requires g.Lawful() && FindFirst(g.open, s) < |s|
    requires var body := s[Stretch(g, s)..];
             && Dropped(g, body) > 0 && g.same(s[FindFirst(g.open, s)..], body[FindFirst(g.close, body)..])
             && Leaves(g, body[Dropped(g, body)..])
    ensures Leaves(g, s)
  {
    var o, body := FindFirst(g.open, s), s[Stretch(g, s)..];
    var rest := body[Dropped(g, body)..];
    DrainStep(g, s);
    DrainDropped(g, body);
    RemoveBlock(g, s);
    var q := Drain(g, rest, false);
    LeavesJoin(Remove(Blocks(g), s), Drain(g, s, false), s[..o], Remove(Blocks(g), rest), q,
               if q.dropping then Unclosed(g, rest) else q.rest);
  }

  lemma {:induction false} LeavesJoin(t: string, r: Drained, p: string, u: string, q: Drained, w: string)
    requires t == p + u && Is(r, p, q) && u == q.out + w
    ensures t == r.out + w
  {
    assert p + (q.out + w) == (p + q.out) + w;
  }

  lemma {:induction false} RemoveBlock(g: Tags, s: string)
    requires g.Lawful() && FindFirst(g.open, s) < |s|
    requires var body := s[Stretch(g, s)..];
             Dropped(g, body) > 0 && g.same(s[FindFirst(g.open, s)..], body[FindFirst(g.close, body)..])
    ensures var body := s[Stretch(g, s)..];
            Remove(Blocks(g), s) == s[..FindFirst(g.open, s)] + Remove(Blocks(g), body[Dropped(g, body)..])
  {
    var o := FindFirst(g.open, s);
    BlockAt(g, s);
    NoBlockBefore(g, s, o);
    var p, w, body := s[..o], s[o..], s[Stretch(g, s)..];
    assert s == p + w;
    RemoveAt(Blocks(g), p, w);
    assert w[BlockLen(g, w)..] == body[Dropped(g, body)..];
  }

  // ----- No open tag is put out -----

  /** What a neat stream puts out holds no open tag. */
  lemma {:induction false} OutIsPlain(g: Tags, s: string, dropping: bool)
    requires g.Lawful() && Neat(g, s, dropping)
    ensures var out := Drain(g, s, dropping).out; NoneBefore(g.open, out, |out|)
    decreases |s|
  {
    if |s| == 0 || (dropping && Dropped(g, s) == 0) {
    } else if dropping {
      OutIsPlain(g, s[Dropped(g, s)..], false);
    } else if FindFirst(g.open, s) < |s| {
      StretchPast(g, s);
      NeatTag(g, s);
      DrainStep(g, s);
      var o, r := FindFirst(g.open, s), Drain(g, s[Stretch(g, s)..], true).out;
      OutIsPlain(g, s[Stretch(g, s)..], true);
      PrefixPlain(g, s, o);
      ScanPlain(g, s[..o], r);
      PlainAfter(g, s[..o], r);
    } else {
      DrainAll(g, s);
      PrefixPlain(g, s, g.hold(s));
    }
  }

  lemma {:induction false} PrefixPlain(g: Tags, s: string, o: nat)
    requires g.Lawful() && o <= FindFirst(g.open, s)
    ensures NoneBefore(g.open, s[..o], o)
  {
    assert s == s[..o] + s[o..];
    OpenNoneBefore(g, s[..o], s[o..], o);
  }

  /** A tag that starts in p would be a match of p + q: deleted, so in p, or inside one, so no tag. */
  lemma {:induction false} ScanPlain(g: Tags, p: string, q: string)
    requires g.Lawful() && NeatScan(g.stray, p, q) && NoneBefore(g.open, p, |p|)
    ensures NoneBefore(g.open, p + q, |p|)
    decreases |p|
  {
    if |p| > 0 {
      var u, n := p + q, g.stray(p + q);
      var k := if n > 0 then n else 1;
      HeadPlain(g, p, q);
      PlainTail(g, p, k);
      ScanPlain(g, p[k..], q);
      forall i | 0 <= i < |p| ensures g.open(u[i..]) == 0 {
        if i >= k {
          assert u[i..] == (p[k..] + q)[i - k..];
          assert g.open((p[k..] + q)[i - k..]) == 0;
        } else if i > 0 {
          g.OpenLaw(u[i..], "");
          assert u[i..][0] == p[1..n][i - 1];
        } else {
          assert u[0..] == u;
        }
      }
    }
  }

  lemma {:induction false} HeadPlain(g: Tags, p: string, q: string)
    requires g.Lawful() && |p| > 0 && g.stray(p + q) <= |p| && NoneBefore(g.open, p, |p|)
    ensures g.open(p + q) == 0
  {
    assert p[0..] == p;
    assert g.open(p[0..]) == 0;
    g.OpenLaw(p, q);
    g.OpenLaw(p + q, "");
  }

  lemma {:induction false} PlainTail(g: Tags, p: string, k: nat)
    requires NoneBefore(g.open, p, |p|) && k <= |p|
    ensures NoneBefore(g.open, p[k..], |p| - k)
  {
    forall i | 0 <= i < |p| - k ensures g.open(p[k..][i..]) == 0 {
      assert p[k..][i..] == p[k + i..];
      assert g.open(p[k + i..]) == 0;
    }
  }

  lemma {:induction false} PlainAfter(g: Tags, p: string, q: string)
    requires NoneBefore(g.open, p + q, |p|) && NoneBefore(g.open, q, |q|)
    ensures NoneBefore(g.open, p + q, |p + q|)
  {
    forall k | 0 <= k < |p + q| ensures g.open((p + q)[k..]) == 0 {
      if k >= |p| {
        assert (p + q)[k..] == q[k - |p|..];
        assert g.open(q[k - |p|..]) == 0;
      }
    }
  }

  lemma {:induction false} NoGtNoTags(g: Tags, s: string)
    requires g.Lawful() && '>' !in s
    ensures FindFirst(g.open, s) == |s| && Remove(g.stray, s) == s
  {
    forall k | 0 <= k < |s| ensures g.stray(s[k..]) == 0 && g.open(s[k..]) == 0 {
      g.StrayLaw(s[k..], "");
      g.OpenLaw(s[k..], "");
      assert s == s[..k] + s[k..];
    }
    FindFirstUnique(g.open, s, |s|);
    RemoveNothing(g.stray, s);
  }

  /** Text without '>' ends no tag that starts before it. */
  lemma {:induction false} StraySteady(g: Tags, p: string, q: string)
    requires g.Lawful() && |p| > 0 && '>' !in q
    ensures g.stray(p + q) == g.stray(p) && g.open(p + q) == g.open(p)
  {
    g.StrayLaw(p, q);
    g.StrayLaw(p + q, "");
    g.OpenLaw(p, q);
    g.OpenLaw(p + q, "");
    assert forall k | |p| <= k < |p + q| :: (p + q)[k] == q[k - |p|];
  }

  /** Text without '>' after p is left alone when the stray tags of p go. */
  lemma {:induction false} NoGtSplits(g: Tags, p: string, q: string)
    requires g.Lawful() && '>' !in q
    ensures Remove(g.stray, p + q) == Remove(g.stray, p) + q
  {
    forall k | 0 <= k < |p| ensures g.stray(p[k..] + q) == g.stray(p[k..]) <= |p| - k {
      StraySteady(g, p[k..], q);
      g.StrayLaw(p[k..], "");
    }
    RemoveSplits(g.stray, p, q);
    NoGtNoTags(g, q);
  }

  lemma {:induction false} NoGtPlain(g: Tags, p: string, q: string)
    requires g.Lawful() && '>' !in q && NoneBefore(g.open, p, |p|)
    ensures FindFirst(g.open, p + q) == |p + q|
  {
    forall k | 0 <= k < |p| ensures g.open((p + q)[k..]) == 0 {
      assert (p + q)[k..] == p[k..] + q;
      StraySteady(g, p[k..], q);
      assert g.open(p[k..]) == 0;
    }
    FirstSkip(g.open, p, q);
    NoGtNoTags(g, q);
  }

  // ----- Streaming and batch -----

  /** What is put out, followed by the unclosed tag, is cut at the first open tag of the two. */
  lemma {:induction false} CutAtTag(g: Tags, out: string, w: string)
    requires g.Lawful() && NoneBefore(g.open, out, |out|) && g.open(w) > 0
    ensures var f := FindFirst(g.open, out + w);
            f <= |out| && (Remove(g.stray, (out + w)[..f]) == Remove(g.stray, out) <==> f == |out|)
  {
    var t, f := out + w, FindFirst(g.open, out + w);
    FindFirstIs(g.open, t);
    OpenEnds(g, w);
    assert t[|out|..] == w;
    if f < |out| {
      assert t[f..] == out[f..] + w && t[..f] == out[..f] && out == out[..f] + out[f..];
      HeadHasNoGt(g, out[f..], w);
      NoGtSplits(g, out[..f], out[f..]);
    } else {
      assert t[..|out|] == out;
    }
  }

  /** What becomes a tag only with the text after it has no '>'. */
  lemma {:induction false} HeadHasNoGt(g: Tags, head: string, w: string)
    requires g.Lawful() && |head| > 0 && g.open(head) == 0 && g.open(head + w) > 0
    ensures '>' !in head
  {
    g.OpenLaw(head, w);
    OpenEnds(g, head + w);
    forall k | 0 <= k < |head| ensures head[k] != '>' { assert head[k] == (head + w)[..g.open(head + w) - 1][k]; }
  }

  /** A neat stream whose blocks close with their own names shows the stripped text exactly when no text
      it puts out runs into an unclosed tag. */
  lemma {:induction false} NeatIsBatch(g: Tags, s: string)
    requires g.Lawful() && Neat(g, s, false) && Paired(g, s)
    ensures var r := Drain(g, s, false);
            Strip(g, s) == Shown(r.(out := Remove(g.stray, r.out))) <==> Unjoined(g, s)
  {
    var r, w := Drain(g, s, false), Unclosed(g, s);
    RemoveBlocks(g, s);
    OutIsPlain(g, s, false);
    DrainSettles(g, s, false);
    var t, gone := Remove(Blocks(g), s), Remove(g.stray, r.out);
    assert gone + "" == gone;
    if r.dropping {
      CutAtTag(g, r.out, w);
    } else {
      NoGtPlain(g, r.out, r.rest);
      NoGtSplits(g, r.out, r.rest);
      assert t[..|t|] == t;
      assert r.out + w == r.out;
      FindFirstUnique(g.open, r.out, |r.out|);
    }
  }

  // ----- A block that only a foreign name closes -----

  /** The first block is closed by a tag of another name, and no tag of its own name follows it. */
  ghost predicate ForeignClose(g: Tags, s: string)
    requires g.Lawful()
  {
    var o := FindFirst(g.open, s);
    o < |s| &&
      var body := s[Stretch(g, s)..];
      Dropped(g, body) > 0 && FindFirst(EndOf(g, s[o..]), body) == |body|
  }

  /** What comes after that block in the stream. */
  function AfterBlock(g: Tags, s: string): string
    requires g.Lawful()
  {
    var body := s[Stretch(g, s)..];
    body[Dropped(g, body)..]
  }

  /** Its tag stays the first open tag whatever follows it. */
  lemma {:induction false} TagStaysFirst(g: Tags, s: string, w: string)
    requires g.Lawful() && FindFirst(g.open, s) < |s|
    ensures FindFirst(g.open, s[..Stretch(g, s)] + w) == FindFirst(g.open, s)
  {
    var o, e := FindFirst(g.open, s), Stretch(g, s);
    var head := s[..e];
    FindFirstIs(g.open, s);
    FindFirstIs(g.open, head);
    g.OpenLaw(s[o..], "");
    assert s[o..] == head[o..] + s[e..] && s == head + s[e..];
    g.OpenLaw(head[o..], s[e..]);
    OpenStays(g, head, s[e..]);
    OpenStays(g, head, w);
  }

  lemma {:induction false} NoBlockInTag(g: Tags, s: string)
    requires g.Lawful() && ForeignClose(g, s) && '<' !in s[FindFirst(g.open, s) + 1..Stretch(g, s)]
    ensures NoneBefore(Blocks(g), s, Stretch(g, s))
  {
    var o, e := FindFirst(g.open, s), Stretch(g, s);
    assert s[o..][g.open(s[o..])..] == s[e..];
    NoBlockBefore(g, s, o);
    forall k | 0 <= k < e ensures Blocks(g)(s[k..]) == 0 {
      if k > o {
        assert s[k..][0] == s[o + 1..e][k - o - 1];
        g.OpenLaw(s[k..], "");
      } else if k < o {
        assert Blocks(g)(s[k..]) == 0;
      }
    }
  }

  /** The batch strips everything from that block on, the stream goes on after the foreign tag: they agree exactly
      when nothing is shown there. */
  lemma {:induction false} ForeignCloseStrips(g: Tags, s: string)
    requires g.Lawful() && ForeignClose(g, s) && Neat(g, s, false)
    ensures Strip(g, s) == Remove(g.stray, s[..FindFirst(g.open, s)])
    ensures var r, q := Drain(g, s, false), Drain(g, AfterBlock(g, s), false);
            Strip(g, s) == Shown(r.(out := Remove(g.stray, r.out))) <==> Shown(q.(out := Remove(g.stray, q.out))) == ""
  {
    var o, e := FindFirst(g.open, s), Stretch(g, s);
    NeatTag(g, s);
    NoBlockInTag(g, s);
    assert s == s[..e] + s[e..];
    RemoveSkip(Blocks(g), s[..e], s[e..]);
    TagStaysFirst(g, s, Remove(Blocks(g), s[e..]));
    assert (s[..e] + Remove(Blocks(g), s[e..]))[..o] == s[..o];
    DrainStep(g, s);
    DrainDropped(g, s[e..]);
    NeatSplits(g, s[..o], Drain(g, AfterBlock(g, s), false).out);
  }

  /** Every close tag of s carries the name of every open tag of s. */
  ghost predicate OneName(g: Tags, s: string) {
    forall i, j {:trigger g.open(s[i..]), g.close(s[j..])} | 0 <= i < |s| && 0 <= j < |s| ::
      g.open(s[i..]) > 0 && g.close(s[j..]) > 0 ==> g.same(s[i..], s[j..])
  }

  lemma {:induction false} OneNameTail(g: Tags, s: string, k: nat)
    requires OneName(g, s) && k <= |s|
    ensures OneName(g, s[k..])
  {
    var rest := s[k..];
    forall i, j | 0 <= i < |rest| && 0 <= j < |rest| && g.open(rest[i..]) > 0 && g.close(rest[j..]) > 0
      ensures g.same(rest[i..], rest[j..])
    {
      assert rest[i..] == s[k + i..] && rest[j..] == s[k + j..];
      assert g.open(s[k + i..]) > 0 && g.close(s[k + j..]) > 0;
    }
  }

  lemma {:induction false} OneNamePairs(g: Tags, s: string)
    requires g.Lawful() && OneName(g, s)
    ensures Paired(g, s)
    decreases |s|
  {
    var o, e := FindFirst(g.open, s), Stretch(g, s);
    if o < |s| {
      StretchPast(g, s);
      var body := s[e..];
      if Dropped(g, body) > 0 {
        var c := FindFirst(g.close, body);
        FindFirstIs(g.open, s);
        FindFirstIs(g.close, body);
        assert body[c..] == s[e + c..];
        assert g.open(s[o..]) > 0 && g.close(s[e + c..]) > 0;
        var k := e + Dropped(g, body);
        var rest := body[Dropped(g, body)..];
        assert rest == s[k..];
        OneNameTail(g, s, k);
        OneNamePairs(g, rest);
      }
    }
  }
}
