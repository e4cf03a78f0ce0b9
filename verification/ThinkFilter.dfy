/**
 The streaming think filter of the assistant callback, and when it does not matter where the stream is cut.
 */
module ThinkFilters {
  import opened TextScan

  /** What one pass of the push loop does to the buffered text; a push then deletes the stray tags of what came out. */
  datatype Drained = Drained(out: string, rest: string, dropping: bool)

  /** The visible stretch at the start of u, through the open tag that ends it. */
  function Stretch(g: Tags, u: string): (e: nat)
    requires g.Lawful()
    ensures e <= |u| && (FindFirst(g.open, u) < |u| ==> FindFirst(g.open, u) < e)
  {
    var o := FindFirst(g.open, u);
    FindFirstIs(g.open, u);
    if o == |u| then o else g.OpenLaw(u[o..], ""); o + g.open(u[o..])
  }

  /** The dropped stretch at the start of s, through the close tag that ends it, or 0 when none does. */
  function Dropped(g: Tags, s: string): (e: nat)
    requires g.Lawful()
    ensures e <= |s| && (e == 0 <==> FindFirst(g.close, s) == |s|)
  {
    var c := FindFirst(g.close, s);
    FindFirstIs(g.close, s);
    if c == |s| then 0 else g.CloseLaw(s[c..], ""); c + g.close(s[c..])
  }

  function Drain(g: Tags, s: string, dropping: bool): Drained
    requires g.Lawful()
    decreases |s|
  {
    if |s| == 0 then Drained("", "", dropping)
    else if dropping then
      if Dropped(g, s) == 0 then Drained("", s, true) else Drain(g, s[Dropped(g, s)..], false)
    else
      var o := FindFirst(g.open, s);
      if o == |s| then g.HoldLaw(s); Drained(s[..g.hold(s)], s[g.hold(s)..], false)
      else
        var r := Drain(g, s[Stretch(g, s)..], true);
        r.(out := s[..o] + r.out)
  }

  /** The matches deleted from p + q that start in p end in p, and hold no '<' but their first. */
  ghost predicate NeatScan(m: Matcher, p: string, q: string)
    decreases |p|
  {
    |p| > 0 ==>
      var n := m(p + q);
      if n > 0 then n <= |p| && '<' !in p[1..n] && NeatScan(m, p[n..], q) else NeatScan(m, p[1..], q)
  }

  /** No tag that is taken or deleted holds a '<' after its first character. A stray tag that runs over the
      end of a visible stretch takes in the block dropped there, and with it that block's '<'. */
  ghost predicate Neat(g: Tags, s: string, dropping: bool)
    requires g.Lawful()
    decreases |s|
  {
    |s| > 0 ==>
      if dropping then Dropped(g, s) > 0 ==> Neat(g, s[Dropped(g, s)..], false)
      else
        var o, e := FindFirst(g.open, s), Stretch(g, s);
        if o == |s| then g.hold(s) <= |s| && NeatScan(g.stray, s[..g.hold(s)], "")
        else
          && '<' !in s[o + 1..e]
          && NeatScan(g.stray, s[..o], Drain(g, s[e..], true).out)
          && Neat(g, s[e..], true)
  }

  // ----- The leftmost match does not move when text arrives -----

  lemma {:induction false} CloseStays(g: Tags, s: string, t: string)
    requires g.Lawful() && FindFirst(g.close, s) < |s|
    ensures FindFirst(g.close, s + t) == FindFirst(g.close, s)
    ensures g.close(s[FindFirst(g.close, s)..] + t) == g.close(s[FindFirst(g.close, s)..])
  {
    var m, c := g.close, FindFirst(g.close, s);
    FindFirstIs(m, s);
    g.CloseLaw(s[c..], t);
    assert s[c..][0] == '<';
    forall k | 0 <= k <= c ensures m(s[k..] + t) == m(s[k..]) <= |s| - k {
      g.CloseLaw(s[k..], t);
      if k < c {
        assert s[k..][1..][c - k - 1] == s[c];
        assert m(s[k..]) == 0;
      }
    }
    FindFirstStays(m, s, t);
  }

  /** An open tag ends with a '>', so no tag that starts before it is still unfinished. */
  lemma {:induction false} OpenStays(g: Tags, s: string, t: string)
    requires g.Lawful() && FindFirst(g.open, s) < |s|
    ensures FindFirst(g.open, s + t) == FindFirst(g.open, s)
    ensures Stretch(g, s + t) == Stretch(g, s)
  {
    var m, o := g.open, FindFirst(g.open, s);
    FindFirstIs(m, s);
    OpenEnds(g, s[o..]);
    forall k | 0 <= k <= o ensures m(s[k..] + t) == m(s[k..]) <= |s| - k {
      g.OpenLaw(s[k..], t);
      if k < o {
        assert m(s[k..]) == 0;
        assert s[k..] == s[k..o] + s[o..];
        NotPartial(g, s[k..]);
      }
    }
    FindFirstStays(m, s, t);
    assert (s + t)[o..] == s[o..] + t;
  }

  lemma {:induction false} OpenEnds(g: Tags, w: string)
    requires g.Lawful() && g.open(w) > 0
    ensures 0 < g.open(w) <= |w| && w[0] == '<' && g.stray(w) == g.open(w)
    ensures w[g.open(w) - 1] == '>' && '>' !in w[..g.open(w) - 1] && '>' in w
  {
    g.OpenLaw(w, "");
    g.StrayLaw(w, "");
  }

  lemma {:induction false} NotPartial(g: Tags, w: string)
    requires g.Lawful() && '>' in w
    ensures !g.partial(w)
  {
    assert g.PartialEnds(w);
  }

  /** The tail that starts at f waits. */
  lemma {:induction false} HeldAt(g: Tags, s: string, f: nat)
    requires g.Lawful() && f < |s| && s[f] == '<' && '<' !in s[f + 1..] && '>' !in s[f..]
    ensures g.hold(s) == f
  {
    var v := s[f..];
    assert v[1..] == s[f + 1..];
    g.HoldWait(v);
    g.HoldSkip(s[..f], v);
    assert s == s[..f] + v;
  }

  /** What is put out of s stops before a tag that more text completes, if that tag is neat. */
  lemma {:induction false} HeldBefore(g: Tags, s: string, t: string)
    requires g.Lawful() && FindFirst(g.open, s) == |s|
    requires var o := FindFirst(g.open, s + t); o < |s + t| ==> '<' !in (s + t)[o + 1..Stretch(g, s + t)]
    ensures g.hold(s) <= FindFirst(g.open, s + t)
  {
    var u, f := s + t, FindFirst(g.open, s + t);
    g.HoldLaw(s);
    if f < |s| {
      FindFirstIs(g.open, s);
      FindFirstIs(g.open, u);
      var w := s[f..];
      assert u[f..] == w + t && g.open(w) == 0;
      g.OpenLaw(w, t);
      OpenEnds(g, w + t);
      assert w[0] == (w + t)[0];
      forall k | 0 < k < |w| ensures w[k] != '<' { assert w[k] == u[f + 1..Stretch(g, u)][k - 1]; }
      forall k | 0 <= k < |w| ensures w[k] != '>' { assert w[k] == (w + t)[..g.open(w + t) - 1][k]; }
      HeldAt(g, s, f);
    }
  }

  lemma {:induction false} OpenNoneBefore(g: Tags, s: string, t: string, f: nat)
    requires g.Lawful() && f <= |s| && f <= FindFirst(g.open, s + t)
    ensures NoneBefore(g.open, s, f)
  {
    FindFirstIs(g.open, s + t);
    forall k | 0 <= k < f ensures g.open(s[k..]) == 0 {
      assert (s + t)[k..] == s[k..] + t;
      g.OpenLaw(s[k..], t);
      assert g.open((s + t)[k..]) == 0;
    }
  }

  // ----- Skipping visible text -----

  /** d is r with p put out before it. */
  predicate Is(d: Drained, p: string, r: Drained) {
    d.out == p + r.out && d.rest == r.rest && d.dropping == r.dropping
  }

  /** Visible text p before v that no open tag touches is put out unchanged. */
  lemma {:induction false} DrainSkip(g: Tags, p: string, v: string)
    requires g.Lawful() && NoneBefore(g.open, p + v, |p|)
    requires (|v| > 0 && v[0] == '<') || g.hold(p) == |p|
    ensures var r := Drain(g, v, false); Is(Drain(g, p + v, false), p, r)
  {
    FirstSkip(g.open, p, v);
    if FindFirst(g.open, v) < |v| {
      DrainOpened(g, p, v);
    } else {
      DrainHeld(g, p, v);
    }
  }

  lemma {:induction false} FirstSkip(m: Matcher, p: string, v: string)
    requires NoneBefore(m, p + v, |p|)
    ensures FindFirst(m, p + v) == |p| + FindFirst(m, v)
  {
    var u, i := p + v, FindFirst(m, v);
    FindFirstIs(m, v);
    assert v[i..] == u[|p| + i..];
    forall j | 0 <= j < |p| + i ensures m(u[j..]) == 0 {
      if j >= |p| { assert u[j..] == v[j - |p|..]; assert m(v[j - |p|..]) == 0; }
    }
    FindFirstUnique(m, u, |p| + i);
  }

  lemma {:induction false} DrainOpened(g: Tags, p: string, v: string)
    requires g.Lawful() && FindFirst(g.open, v) < |v|
    requires FindFirst(g.open, p + v) == |p| + FindFirst(g.open, v)
    ensures var r := Drain(g, v, false); Is(Drain(g, p + v, false), p, r)
  {
    StretchSkip(g, p, v);
    TakeSkip(p, v, FindFirst(g.open, v));
    DrainsTo(g, p + v, p + v[..FindFirst(g.open, v)], v[Stretch(g, v)..]);
    DrainsTo(g, v, v[..FindFirst(g.open, v)], v[Stretch(g, v)..]);
    IsTrans(Drain(g, p + v, false), p, Drain(g, v, false), v[..FindFirst(g.open, v)], Drain(g, v[Stretch(g, v)..], true));
  }

  lemma {:induction false} DrainsTo(g: Tags, u: string, out: string, body: string)
    requires g.Lawful() && FindFirst(g.open, u) < |u|
    requires out == u[..FindFirst(g.open, u)] && body == u[Stretch(g, u)..]
    ensures Is(Drain(g, u, false), out, Drain(g, body, true))
  {
    DrainStep(g, u);
  }

  lemma {:induction false} TakeSkip(p: string, v: string, k: nat)
    requires k <= |v|
    ensures (p + v)[..|p| + k] == p + v[..k]
  {}

  lemma {:induction false} IsTrans(a: Drained, p: string, b: Drained, q: string, c: Drained)
    requires Is(a, p + q, c) && Is(b, q, c)
    ensures Is(a, p, b)
  {
    assert p + q + c.out == p + (q + c.out);
  }

  lemma {:induction false} StretchSkip(g: Tags, p: string, v: string)
    requires g.Lawful() && FindFirst(g.open, v) < |v|
    requires FindFirst(g.open, p + v) == |p| + FindFirst(g.open, v)
    ensures Stretch(g, p + v) == |p| + Stretch(g, v)
    ensures (p + v)[Stretch(g, p + v)..] == v[Stretch(g, v)..]
  {
    var o := FindFirst(g.open, v);
    assert (p + v)[|p| + o..] == v[o..];
    DropSkip(p, v, Stretch(g, v));
  }

  lemma {:induction false} DropSkip(p: string, v: string, k: nat)
    requires k <= |v|
    ensures (p + v)[|p| + k..] == v[k..]
  {}

  lemma {:induction false} DrainStep(g: Tags, u: string)
    requires g.Lawful() && FindFirst(g.open, u) < |u|
    ensures var r := Drain(g, u[Stretch(g, u)..], true);
            Is(Drain(g, u, false), u[..FindFirst(g.open, u)], r)
  {}

  lemma {:induction false} DrainHeld(g: Tags, p: string, v: string)
    requires g.Lawful() && FindFirst(g.open, v) == |v| && FindFirst(g.open, p + v) == |p + v|
    requires (|v| > 0 && v[0] == '<') || g.hold(p) == |p|
    ensures var r := Drain(g, v, false); Is(Drain(g, p + v, false), p, r)
  {
    g.HoldSkip(p, v);
    g.HoldLaw(v);
    DrainAll(g, p + v);
    DrainAll(g, v);
    var h := g.hold(v);
    assert (p + v)[..|p| + h] == p + v[..h];
    assert (p + v)[|p| + h..] == v[h..];
  }

  lemma {:induction false} DrainAll(g: Tags, u: string)
    requires g.Lawful() && FindFirst(g.open, u) == |u|
    ensures g.HoldShape(u) && Drain(g, u, false) == Drained(u[..g.hold(u)], u[g.hold(u)..], false)
  {}

  lemma {:induction false} StretchPast(g: Tags, u: string)
    requires g.Lawful()
    ensures FindFirst(g.open, u) < |u| ==> FindFirst(g.open, u) < Stretch(g, u)
    ensures FindFirst(g.open, u) == |u| ==> Stretch(g, u) == |u|
  {}

  lemma {:induction false} DroppedStays(g: Tags, s: string, t: string)
    requires g.Lawful() && Dropped(g, s) > 0
    ensures Dropped(g, s + t) == Dropped(g, s) && (s + t)[Dropped(g, s)..] == s[Dropped(g, s)..] + t
  {
    CloseStays(g, s, t);
    assert (s + t)[FindFirst(g.close, s)..] == s[FindFirst(g.close, s)..] + t;
  }

  lemma {:induction false} DrainDropped(g: Tags, s: string)
    requires g.Lawful() && Dropped(g, s) > 0
    ensures Drain(g, s, true) == Drain(g, s[Dropped(g, s)..], false)
  {}

  lemma {:induction false} IsJoin(a: Drained, p: string, b: Drained, q: string, c: Drained)
    requires Is(a, p, b) && Is(b, q, c)
    ensures Is(a, p + q, c)
  {
    assert p + (q + c.out) == p + q + c.out;
  }

  // ----- Deleting stray tags piecewise -----

  /** Deleting the neat matches of p leaves what follows as it is. */
  lemma {:induction false} NeatSplits(g: Tags, p: string, q: string)
    requires g.Lawful() && NeatScan(g.stray, p, q)
    ensures Remove(g.stray, p + q) == Remove(g.stray, p) + Remove(g.stray, q)
    decreases |p|
  {
    if |p| == 0 {
      assert p + q == q;
    } else {
      SameMatch(g, p, q);
      var n := g.stray(p + q);
      var k := if n > 0 then n else 1;
      assert (p + q)[k..] == p[k..] + q;
      NeatSplits(g, p[k..], q);
      assert [p[0]] + (Remove(g.stray, p[k..]) + Remove(g.stray, q)) == [p[0]] + Remove(g.stray, p[k..]) + Remove(g.stray, q);
    }
  }

  /** A match of p + q that ends in p, or none, is what p alone has. */
  lemma {:induction false} SameMatch(g: Tags, p: string, q: string)
    requires g.Lawful() && |p| > 0 && g.stray(p + q) <= |p|
    ensures g.stray(p) == g.stray(p + q)
  {
    g.StrayLaw(p, q);
  }

  lemma {:induction false} NeatPrefix(g: Tags, p: string, q: string, t: string)
    requires g.Lawful() && NeatScan(g.stray, p, q + t)
    ensures NeatScan(g.stray, p, q)
    decreases |p|
  {
    if |p| > 0 {
      assert p + (q + t) == (p + q) + t;
      var n := g.stray(p + (q + t));
      SameMatch(g, p + q, t);
      NeatPrefix(g, p[if n > 0 then n else 1..], q, t);
    }
  }

  /** Every '<' of p is followed by another, or by a '>'. */
  ghost predicate Closed(p: string) {
    forall k | 0 <= k < |p| && p[k] == '<' :: '<' in p[k + 1..] || '>' in p[k..]
  }

  lemma {:induction false} ClosedTail(p: string, k: nat)
    requires Closed(p) && k <= |p|
    ensures Closed(p[k..])
  {
    var q := p[k..];
    forall i | 0 <= i < |q| && q[i] == '<' ensures '<' in q[i + 1..] || '>' in q[i..] {
      assert q[i] == p[k + i] && q[i + 1..] == p[k + i + 1..] && q[i..] == p[k + i..];
    }
  }

  lemma {:induction false} AllOutIsClosed(g: Tags, p: string)
    requires g.Lawful() && g.hold(p) == |p|
    ensures Closed(p)
  {
    forall k | 0 <= k < |p| && p[k] == '<' ensures '<' in p[k + 1..] || '>' in p[k..] {
      if '<' !in p[k + 1..] && '>' !in p[k..] { HeldAt(g, p, k); }
    }
  }

  /** No neat match crosses into w when w starts with a '<', or when p leaves nothing waiting. */
  lemma {:induction false} NeatCut(g: Tags, p: string, w: string, r: string)
    requires g.Lawful() && NeatScan(g.stray, p + w, r)
    requires |w| == 0 || w[0] == '<' || Closed(p)
    ensures NeatScan(g.stray, p, w + r) && NeatScan(g.stray, w, r)
    decreases |p|
  {
    assert p + (w + r) == (p + w) + r;
    if |p| == 0 {
      assert p + w == w;
    } else {
      var n := g.stray((p + w) + r);
      if n > 0 { NeatStays(g, p, w, r); }
      var k := if n > 0 then n else 1;
      assert (p + w)[k..] == p[k..] + w;
      if |w| > 0 && w[0] != '<' { ClosedTail(p, k); }
      NeatCut(g, p[k..], w, r);
    }
  }

  lemma {:induction false} NeatStays(g: Tags, p: string, w: string, r: string)
    requires g.Lawful() && |p| > 0 && 0 < g.stray((p + w) + r) <= |p + w|
    requires '<' !in (p + w)[1..g.stray((p + w) + r)]
    requires |w| == 0 || w[0] == '<' || Closed(p)
    ensures g.stray((p + w) + r) <= |p|
    ensures '<' !in p[1..g.stray((p + w) + r)]
  {
    var u, v, n := (p + w) + r, p + w, g.stray((p + w) + r);
    g.StrayLaw(u, "");
    forall k | 1 <= k < n ensures v[k] != '<' { assert v[k] == v[1..n][k - 1]; }
    forall k | 0 <= k < n - 1 ensures v[k] != '>' { assert v[k] == u[..n - 1][k]; }
    assert v[0] == u[0];
    TagStays(p, w, n);
    assert p[1..n] == v[1..n];
  }

  /** A tag that holds no second '<' and no inner '>' ends before w. */
  lemma {:induction false} TagStays(p: string, w: string, n: nat)
    requires |p| > 0 && 0 < n <= |p + w| && (p + w)[0] == '<'
    requires forall k | 1 <= k < n :: (p + w)[k] != '<'
    requires forall k | 0 <= k < n - 1 :: (p + w)[k] != '>'
    requires |w| == 0 || w[0] == '<' || Closed(p)
    ensures n <= |p|
  {
    var v := p + w;
    assert |p| < |v| ==> v[|p|] == w[0];
    assert forall k | 0 <= k < |p| :: v[k] == p[k];
    assert forall i | 0 <= i < |p[1..]| :: p[1..][i] == v[i + 1];
    assert p[0..] == p;
  }

  // ----- Cutting the stream -----

  /** Draining s and then the rest with t is draining s + t, and deleting the stray tags splits there. */
  ghost predicate Composes(g: Tags, s: string, t: string, dropping: bool)
    requires g.Lawful()
  {
    var r := Drain(g, s, dropping);
    var q := Drain(g, r.rest + t, r.dropping);
    && Is(Drain(g, s + t, dropping), r.out, q)
    && Neat(g, r.rest + t, r.dropping)
    && Remove(g.stray, r.out + q.out) == Remove(g.stray, r.out) + Remove(g.stray, q.out)
  }

  lemma {:induction false} Compose(g: Tags, s: string, t: string, dropping: bool)
    requires g.Lawful() && Neat(g, s + t, dropping)
    ensures Composes(g, s, t, dropping)
    decreases |s|
  {
    if |s| == 0 || (dropping && Dropped(g, s) == 0) {
      ComposeNothing(g, s, t, dropping);
    } else if dropping {
      DroppedStays(g, s, t);
      Compose(g, s[Dropped(g, s)..], t, false);
      ComposeDropping(g, s, t);
    } else if FindFirst(g.open, s) < |s| {
      OpenStays(g, s, t);
      StretchPast(g, s);
      assert (s + t)[Stretch(g, s)..] == s[Stretch(g, s)..] + t;
      Compose(g, s[Stretch(g, s)..], t, true);
      ComposeOpened(g, s, t);
    } else {
      ComposeHeld(g, s, t);
    }
  }

  lemma {:induction false} ComposeNothing(g: Tags, s: string, t: string, dropping: bool)
    requires g.Lawful() && Neat(g, s + t, dropping)
    requires |s| == 0 || (dropping && Dropped(g, s) == 0)
    ensures Composes(g, s, t, dropping)
  {
    var q := Drain(g, s + t, dropping);
    assert Drain(g, s, dropping) == Drained("", s, dropping);
    assert "" + q.out == q.out && "" + Remove(g.stray, q.out) == Remove(g.stray, q.out);
  }

  lemma {:induction false} ComposeDropping(g: Tags, s: string, t: string)
    requires g.Lawful() && Dropped(g, s) > 0
    requires Composes(g, s[Dropped(g, s)..], t, false)
    ensures Composes(g, s, t, true)
  {
    DroppedStays(g, s, t);
    DrainDropped(g, s);
    DrainDropped(g, s + t);
  }

  lemma {:induction false} ComposeOpened(g: Tags, s: string, t: string)
    requires g.Lawful() && FindFirst(g.open, s) < |s| && Neat(g, s + t, false)
    requires Composes(g, s[Stretch(g, s)..], t, true)
    ensures Composes(g, s, t, false)
  {
    OpenStays(g, s, t);
    NeatTag(g, s + t);
    OpenedScan(g, s, t);
    OpenedDrain(g, s, t);
  }

  lemma {:induction false} OpenedDrain(g: Tags, s: string, t: string)
    requires g.Lawful() && FindFirst(g.open, s) < |s|
    requires Composes(g, s[Stretch(g, s)..], t, true)
    requires NeatScan(g.stray, s[..FindFirst(g.open, s)], Drain(g, s[Stretch(g, s)..] + t, true).out)
    ensures Composes(g, s, t, false)
  {
    var o, body := FindFirst(g.open, s), s[Stretch(g, s)..];
    var r := Drain(g, body, true);
    BothOpened(g, s, t);
    JoinDrained(g, s[..o], r, Drain(g, r.rest + t, r.dropping), Drain(g, body + t, true), Drain(g, s, false), Drain(g, s + t, false));
  }

  lemma {:induction false} BothOpened(g: Tags, s: string, t: string)
    requires g.Lawful() && FindFirst(g.open, s) < |s|
    ensures var o, body := FindFirst(g.open, s), s[Stretch(g, s)..];
            var r, u := Drain(g, body, true), Drain(g, body + t, true);
            Is(Drain(g, s, false), s[..o], r) && Is(Drain(g, s + t, false), s[..o], u)
  {
    OpenStays(g, s, t);
    assert (s + t)[Stretch(g, s)..] == s[Stretch(g, s)..] + t && (s + t)[..FindFirst(g.open, s)] == s[..FindFirst(g.open, s)];
    DrainStep(g, s);
    DrainStep(g, s + t);
  }

  /** Text p before two drained streams that compose. */
  lemma {:induction false} JoinDrained(g: Tags, p: string, r: Drained, q: Drained, u: Drained, r': Drained, u': Drained)
    requires g.Lawful() && Is(u, r.out, q) && Is(r', p, r) && Is(u', p, u) && NeatScan(g.stray, p, u.out)
    requires Remove(g.stray, r.out + q.out) == Remove(g.stray, r.out) + Remove(g.stray, q.out)
    ensures Is(u', r'.out, q)
    ensures Remove(g.stray, r'.out + q.out) == Remove(g.stray, r'.out) + Remove(g.stray, q.out)
  {
    IsJoin(u', p, u, r.out, q);
    SplitJoins(g, p, r.out, q.out);
  }

  lemma {:induction false} OpenedScan(g: Tags, s: string, t: string)
    requires g.Lawful() && FindFirst(g.open, s) < |s|
    requires FindFirst(g.open, s + t) < |s + t| ==>
               NeatScan(g.stray, (s + t)[..FindFirst(g.open, s + t)], Drain(g, (s + t)[Stretch(g, s + t)..], true).out)
    ensures NeatScan(g.stray, s[..FindFirst(g.open, s)], Drain(g, s[Stretch(g, s)..] + t, true).out)
  {
    var o := FindFirst(g.open, s);
    OpenStays(g, s, t);
    assert (s + t)[Stretch(g, s)..] == s[Stretch(g, s)..] + t && (s + t)[..o] == s[..o];
  }

  lemma {:induction false} SplitJoins(g: Tags, p: string, r: string, q: string)
    requires g.Lawful() && NeatScan(g.stray, p, r + q)
    requires Remove(g.stray, r + q) == Remove(g.stray, r) + Remove(g.stray, q)
    ensures Remove(g.stray, (p + r) + q) == Remove(g.stray, p + r) + Remove(g.stray, q)
  {
    NeatPrefix(g, p, r, q);
    NeatSplits(g, p, r);
    NeatSplits(g, p, r + q);
    Regroup(p, r, q);
    Regroup(Remove(g.stray, p), Remove(g.stray, r), Remove(g.stray, q));
  }

  lemma {:induction false} Regroup(x: string, y: string, z: string)
    ensures x + (y + z) == (x + y) + z
  {}

  lemma {:induction false} ComposeHeld(g: Tags, s: string, t: string)
    requires g.Lawful() && FindFirst(g.open, s) == |s| && |s| > 0 && Neat(g, s + t, false)
    ensures Composes(g, s, t, false)
  {
    HeldBefore(g, s, t);
    g.HoldLaw(s);
    var k := g.hold(s);
    var p, v := s[..k], s[k..] + t;
    FindFirstIs(g.open, s + t);
    assert s + t == p + v;
    forall i | 0 <= i < k ensures g.open((p + v)[i..]) == 0 { assert g.open((s + t)[i..]) == 0; }
    DrainAll(g, s);
    if k == |s| { assert p == s; }
    DrainSkip(g, p, v);
    NeatSkip(g, p, v);
    NeatSplits(g, p, Drain(g, v, false).out);
  }

  /** Visible text p before v is scanned apart from v. */
  lemma {:induction false} NeatSkip(g: Tags, p: string, v: string)
    requires g.Lawful() && Neat(g, p + v, false) && NoneBefore(g.open, p + v, |p|)
    requires (|v| > 0 && v[0] == '<') || g.hold(p) == |p|
    ensures NeatScan(g.stray, p, Drain(g, v, false).out) && Neat(g, v, false)
  {
    FirstSkip(g.open, p, v);
    if g.hold(p) == |p| { AllOutIsClosed(g, p); }
    if FindFirst(g.open, v) < |v| {
      SkippedOpening(g, p, v);
      NeatSkipOpened(g, p, v);
    } else {
      NeatSkipHeld(g, p, v);
    }
  }

  /** What Neat says of a visible stretch, the inside of the tag after it and the text dropped from there. */
  ghost predicate NeatOpening(g: Tags, head: string, inside: string, body: string)
    requires g.Lawful()
  {
    '<' !in inside && NeatScan(g.stray, head, Drain(g, body, true).out) && Neat(g, body, true)
  }

  lemma {:induction false} SkippedOpening(g: Tags, p: string, v: string)
    requires g.Lawful() && Neat(g, p + v, false) && FindFirst(g.open, v) < |v|
    requires FindFirst(g.open, p + v) == |p| + FindFirst(g.open, v)
    ensures var o, e := FindFirst(g.open, v), Stretch(g, v); NeatOpening(g, p + v[..o], v[o + 1..e], v[e..])
  {
    NeatTag(g, p + v);
    SkipTag(g, p, v);
  }

  lemma {:induction false} SkipTag(g: Tags, p: string, v: string)
    requires g.Lawful() && FindFirst(g.open, v) < |v| && FindFirst(g.open, p + v) == |p| + FindFirst(g.open, v)
    ensures var o, e := FindFirst(g.open, v), Stretch(g, v);
            && (p + v)[..|p| + o] == p + v[..o]
            && (p + v)[|p| + o + 1..Stretch(g, p + v)] == v[o + 1..e]
            && (p + v)[Stretch(g, p + v)..] == v[e..]
  {
    var o, e := FindFirst(g.open, v), Stretch(g, v);
    StretchSkip(g, p, v);
    TakeSkip(p, v, o);
    SliceSkip(p, v, o + 1, e);
  }

  lemma {:induction false} NeatTag(g: Tags, u: string)
    requires g.Lawful() && Neat(g, u, false) && FindFirst(g.open, u) < |u|
    ensures var o, e := FindFirst(g.open, u), Stretch(g, u); NeatOpening(g, u[..o], u[o + 1..e], u[e..])
  {}

  lemma {:induction false} SliceSkip(p: string, v: string, i: nat, j: nat)
    requires i <= j <= |v|
    ensures (p + v)[|p| + i..|p| + j] == v[i..j]
  {}

  lemma {:induction false} NeatSkipOpened(g: Tags, p: string, v: string)
    requires g.Lawful() && FindFirst(g.open, v) < |v| && (v[0] == '<' || Closed(p))
    requires var o, e := FindFirst(g.open, v), Stretch(g, v); NeatOpening(g, p + v[..o], v[o + 1..e], v[e..])
    ensures NeatScan(g.stray, p, Drain(g, v, false).out) && Neat(g, v, false)
  {
    var o, body := FindFirst(g.open, v), v[Stretch(g, v)..];
    NeatCut(g, p, v[..o], Drain(g, body, true).out);
    DrainStep(g, v);
  }

  lemma {:induction false} NeatSkipHeld(g: Tags, p: string, v: string)
    requires g.Lawful() && Neat(g, p + v, false) && FindFirst(g.open, v) == |v|
    requires FindFirst(g.open, p + v) == |p + v|
    requires (|v| > 0 && v[0] == '<') || (g.hold(p) == |p| && Closed(p))
    ensures NeatScan(g.stray, p, Drain(g, v, false).out) && Neat(g, v, false)
  {
    g.HoldSkip(p, v);
    g.HoldLaw(v);
    DrainAll(g, v);
    TakeSkip(p, v, g.hold(v));
    if |p + v| == 0 { assert NeatScan(g.stray, p, "") && v == ""; }
    else {
      NeatCut(g, p, v[..g.hold(v)], "");
      assert v[..g.hold(v)] + "" == v[..g.hold(v)];
    }
  }

  // ----- Pushing chunks -----

  /** One push: drain the buffer with the new text, then delete the stray tags of what came out. */
  function Push(g: Tags, buf: string, dropping: bool, text: string): Drained
    requires g.Lawful()
  {
    if |text| == 0 then Drained("", buf, dropping)
    else
      var r := Drain(g, buf + text, dropping);
      r.(out := Remove(g.stray, r.out))
  }

  function PushAll(g: Tags, buf: string, dropping: bool, chunks: seq<string>): Drained
    requires g.Lawful()
    decreases |chunks|
  {
    if |chunks| == 0 then Drained("", buf, dropping)
    else
      var r := Push(g, buf, dropping, chunks[0]);
      var q := PushAll(g, r.rest, r.dropping, chunks[1..]);
      q.(out := r.out + q.out)
  }

  function Flatten(chunks: seq<string>): string {
    if |chunks| == 0 then "" else chunks[0] + Flatten(chunks[1..])
  }

  /** The buffer holds only what must wait: the state between two pushes. */
  ghost predicate Settled(g: Tags, buf: string, dropping: bool)
    requires g.Lawful()
  {
    Drain(g, buf, dropping) == Drained("", buf, dropping)
  }

  lemma {:induction false} DrainSettles(g: Tags, s: string, dropping: bool)
    requires g.Lawful()
    ensures var r := Drain(g, s, dropping);
            Settled(g, r.rest, r.dropping) && (!r.dropping ==> '>' !in r.rest)
    decreases |s|
  {
    if |s| == 0 {
    } else if dropping {
      if Dropped(g, s) > 0 { DrainSettles(g, s[Dropped(g, s)..], false); }
    } else if FindFirst(g.open, s) < |s| {
      StretchPast(g, s);
      DrainSettles(g, s[Stretch(g, s)..], true);
    } else {
      DrainAll(g, s);
      HoldSettles(g, s);
    }
  }

  lemma {:induction false} HoldSettles(g: Tags, s: string)
    requires g.Lawful() && g.HoldShape(s) && FindFirst(g.open, s) == |s|
    ensures Settled(g, s[g.hold(s)..], false) && '>' !in s[g.hold(s)..]
  {
    g.HoldLaw(s);
    var p, w := s[..g.hold(s)], s[g.hold(s)..];
    assert s == p + w;
    FindFirstIs(g.open, s);
    forall k | 0 <= k < |p| ensures g.open((p + w)[k..]) == 0 { assert g.open(s[k..]) == 0; }
    FirstSkip(g.open, p, w);
    if |w| > 0 {
      g.HoldSkip(p, w);
      DrainAll(g, w);
    }
  }

  lemma {:induction false} PushIsDrain(g: Tags, buf: string, dropping: bool, text: string)
    requires g.Lawful() && Settled(g, buf, dropping)
    ensures var r := Drain(g, buf + text, dropping);
            Push(g, buf, dropping, text) == r.(out := Remove(g.stray, r.out))
  {
    if |text| == 0 { assert buf + text == buf; }
  }

  /** Two pushes are one push of the joined text, in visible text and in state. */
  lemma {:induction false} PushTwiceIsPushOnce(g: Tags, buf: string, dropping: bool, a: string, b: string)
    requires g.Lawful() && Settled(g, buf, dropping) && Neat(g, buf + (a + b), dropping)
    ensures var r := Push(g, buf, dropping, a);
            var q := Push(g, r.rest, r.dropping, b);
            && Push(g, buf, dropping, a + b) == Drained(r.out + q.out, q.rest, q.dropping)
            && Settled(g, r.rest, r.dropping) && Neat(g, r.rest + b, r.dropping)
  {
    assert buf + (a + b) == (buf + a) + b;
    Compose(g, buf + a, b, dropping);
    DrainSettles(g, buf + a, dropping);
    var r := Drain(g, buf + a, dropping);
    PushIsDrain(g, buf, dropping, a);
    PushIsDrain(g, r.rest, r.dropping, b);
    PushIsDrain(g, buf, dropping, a + b);
  }

  /** However a neat stream is cut into chunks, the visible text and the final state are those of one push. */
  lemma {:induction false} StreamInvariance(g: Tags, buf: string, dropping: bool, chunks: seq<string>)
    requires g.Lawful() && Settled(g, buf, dropping) && Neat(g, buf + Flatten(chunks), dropping)
    ensures PushAll(g, buf, dropping, chunks) == Push(g, buf, dropping, Flatten(chunks))
    decreases |chunks|
  {
    if |chunks| > 0 {
      PushTwiceIsPushOnce(g, buf, dropping, chunks[0], Flatten(chunks[1..]));
      var r := Push(g, buf, dropping, chunks[0]);
      StreamInvariance(g, r.rest, r.dropping, chunks[1..]);
    }
  }
}
