/**
 When the answer of the think filter does not depend on where the stream is cut: exactly for neat streams.
 */
module ThinkExact {
  import opened TextScan
  import opened ThinkFilters
  import opened ThinkBatch

  // ----- Chunks -----

  lemma {:induction false} PushFirst(g: Tags, buf: string, dropping: bool, chunk: string, chunks: seq<string>)
    requires g.Lawful()
    ensures var r := Push(g, buf, dropping, chunk);
            var q := PushAll(g, r.rest, r.dropping, chunks);
            PushAll(g, buf, dropping, [chunk] + chunks) == Drained(r.out + q.out, q.rest, q.dropping)
    ensures Flatten([chunk] + chunks) == chunk + Flatten(chunks)
  {
    assert ([chunk] + chunks)[1..] == chunks;
  }

  function Chars(s: string): seq<string> {
    if |s| == 0 then [] else [s[..1]] + Chars(s[1..])
  }

  lemma {:induction false} CharsFlatten(s: string)
    ensures Flatten(Chars(s)) == s
  {
    if |s| > 0 {
      CharsFlatten(s[1..]);
      assert Chars(s)[1..] == Chars(s[1..]);
      assert s == s[..1] + s[1..];
    }
  }

  /** Length of what a cutting shows from a state on. */
  function ShownLen(g: Tags, buf: string, dropping: bool, chunks: seq<string>): nat
    requires g.Lawful()
  {
    |Shown(PushAll(g, buf, dropping, chunks))|
  }

  lemma {:induction false} ShownFirst(g: Tags, buf: string, dropping: bool, chunk: string, chunks: seq<string>)
    requires g.Lawful()
    ensures var r := Push(g, buf, dropping, chunk);
            ShownLen(g, buf, dropping, [chunk] + chunks) == |r.out| + ShownLen(g, r.rest, r.dropping, chunks)
  {
    PushFirst(g, buf, dropping, chunk, chunks);
  }

  // ----- Pushes that end where a tag ends -----

  lemma {:induction false} PushDropped(g: Tags, s: string)
    requires g.Lawful() && Dropped(g, s) > 0
    ensures Push(g, "", true, s[..Dropped(g, s)]) == Drained("", "", false)
  {
    var c, d := FindFirst(g.close, s), Dropped(g, s);
    var a, b := s[..d], s[d..];
    FindFirstIs(g.close, s);
    assert s == a + b;
    CloseShort(g, a, b, c);
    DropsAll(g, a);
    assert "" + a == a;
  }

  lemma {:induction false} CloseShort(g: Tags, a: string, b: string, c: nat)
    requires g.Lawful() && c < |a| && c == FindFirst(g.close, a + b) && c + g.close((a + b)[c..]) == |a|
    ensures FindFirst(g.close, a) == c && g.close(a[c..]) == |a| - c
  {
    FindFirstIs(g.close, a + b);
    forall k | 0 <= k <= c ensures (k < c ==> g.close(a[k..]) == 0) && (k == c ==> g.close(a[k..]) == |a| - c) {
      assert (a + b)[k..] == a[k..] + b;
      g.CloseLaw(a[k..], b);
      assert k < c ==> g.close((a + b)[k..]) == 0;
    }
    FindFirstUnique(g.close, a, c);
  }

  lemma {:induction false} DropsAll(g: Tags, a: string)
    requires g.Lawful() && |a| > 0 && Dropped(g, a) == |a|
    ensures Drain(g, a, true) == Drained("", "", false)
  {
    assert a[|a|..] == "";
  }

  lemma {:induction false} PushOpened(g: Tags, s: string)
    requires g.Lawful() && FindFirst(g.open, s) < |s|
    ensures Push(g, "", false, s[..Stretch(g, s)]) == Drained(Remove(g.stray, s[..FindFirst(g.open, s)]), "", true)
  {
    var o, e := FindFirst(g.open, s), Stretch(g, s);
    var a, b := s[..e], s[e..];
    StretchPast(g, s);
    assert s == a + b && "" + a == a;
    OpenShort(g, a, b, o);
    DrainStep(g, a);
    assert a[e..] == "" && a[..o] == s[..o] && a[..o] + "" == a[..o];
  }

  lemma {:induction false} OpenShort(g: Tags, a: string, b: string, o: nat)
    requires g.Lawful() && o < |a| && o == FindFirst(g.open, a + b) && Stretch(g, a + b) == |a|
    ensures FindFirst(g.open, a) == o && Stretch(g, a) == |a|
  {
    assert (a + b)[o..] == a[o..] + b;
    g.OpenLaw(a[o..], b);
    OpenNoneBefore(g, a, b, o);
    FindFirstUnique(g.open, a, o);
  }

  /** Text that ends with its only '>' is worked off to the end. */
  lemma {:induction false} WorkedOff(g: Tags, w: string)
    requires g.Lawful() && |w| > 0 && w[|w| - 1] == '>' && '>' !in w[..|w| - 1]
    ensures Drain(g, w, false).rest == ""
  {
    var o := FindFirst(g.open, w);
    if o < |w| {
      FindFirstIs(g.open, w);
      OpenEnds(g, w[o..]);
      var n := g.open(w[o..]);
      assert w[o..][n - 1] == w[o + n - 1];
      assert forall k | 0 <= k < |w| - 1 :: w[k] == w[..|w| - 1][k];
      DrainStep(g, w);
      assert w[Stretch(g, w)..] == "";
    } else {
      g.HoldLaw(w);
      DrainAll(g, w);
      EndsHold(g, w);
    }
  }

  lemma {:induction false} EndsHold(g: Tags, w: string)
    requires g.Lawful() && |w| > 0 && w[|w| - 1] == '>'
    ensures g.hold(w) == |w| && w[g.hold(w)..] == ""
  {
    g.HoldLaw(w);
    if g.hold(w) < |w| { LastIn(w, g.hold(w)); }
  }

  lemma {:induction false} LastIn(w: string, k: nat)
    requires k < |w|
    ensures w[|w| - 1] in w[k..]
  {
    assert w[k..][|w| - 1 - k] == w[|w| - 1];
  }

  // ----- An open tag that holds a '<' -----

  /** Dropping shows no more than staying visible when the text comes one character at a time. */
  lemma {:induction false} Race(g: Tags, b: string, t: string)
    requires g.Lawful() && FindFirst(g.close, b) == |b|
    ensures g.HoldShape(b) && ShownLen(g, b, true, Chars(t)) <= ShownLen(g, b[g.hold(b)..], false, Chars(t))
    decreases |t|
  {
    g.HoldLaw(b);
    if |t| > 0 {
      var c, h := t[..1], b[g.hold(b)..];
      ShownFirst(g, b, true, c, Chars(t[1..]));
      ShownFirst(g, h, false, c, Chars(t[1..]));
      if FindFirst(g.close, b + c) < |b + c| {
        RaceCloses(g, b, c);
      } else {
        DropNothing(g, b + c);
        if FindFirst(g.open, h + c) < |h + c| {
          RaceOpens(g, b, c);
          assert (b + c) + "" == b + c;
          BothDrop(g, b + c, "", t[1..]);
        } else {
          RaceGoesOn(g, b, c);
          Race(g, b + c, t[1..]);
        }
      }
    }
  }

  lemma {:induction false} DropNothing(g: Tags, b: string)
    requires g.Lawful() && FindFirst(g.close, b) == |b|
    ensures Drain(g, b, true) == Drained("", b, true)
  {}

  /** One character completes a close tag: both filters are visible with nothing held. */
  lemma {:induction false} RaceCloses(g: Tags, b: string, c: string)
    requires g.Lawful() && FindFirst(g.close, b) == |b| && |c| == 1 && FindFirst(g.close, b + c) < |b + c|
    ensures Push(g, b, true, c) == Drained("", "", false)
    ensures g.HoldShape(b)
    ensures var r := Push(g, b[g.hold(b)..], false, c); r.rest == "" && !r.dropping
  {
    CloseEndsAt(g, b, c);
    DropsAll(g, b + c);
    g.HoldLaw(b);
    CloseIsText(g, b[g.hold(b)..] + c);
  }

  /** A close tag met outside a block is put out as text. */
  lemma {:induction false} CloseIsText(g: Tags, w: string)
    requires g.Lawful() && |w| > 0 && g.close(w) == |w|
    ensures Drain(g, w, false) == Drained(w, "", false)
  {
    g.CloseLaw(w, "");
    forall k | 0 <= k < |w| ensures g.open(w[k..]) == 0 {
      g.OpenLaw(w[k..], "");
      if k > 0 { assert w[k..][0] == w[1..|w|][k - 1]; } else { assert w[0..] == w; }
    }
    FindFirstUnique(g.open, w, |w|);
    EndsHold(g, w);
    DrainAll(g, w);
  }

  /** A close tag completed by one character ends with it and starts where the held tail starts. */
  lemma {:induction false} CloseEndsAt(g: Tags, b: string, c: string)
    requires g.Lawful() && FindFirst(g.close, b) == |b| && |c| == 1 && FindFirst(g.close, b + c) < |b + c|
    ensures var x := FindFirst(g.close, b + c);
            && x < |b| && g.hold(b) == x && Dropped(g, b + c) == |b + c|
            && g.close(b[x..] + c) == |b[x..] + c|
  {
    var x := FindFirst(g.close, b + c);
    FindFirstIs(g.close, b + c);
    FindFirstIs(g.close, b);
    var h := if x < |b| then b[x..] else "";
    var w := h + c;
    assert (b + c)[x..] == w;
    var n := g.close(w);
    g.CloseLaw(w, "");
    g.CloseLaw(h, c);
    assert x < |b| ==> g.close(b[x..]) == 0;
    assert n == |w|;
    assert w[0] == '<' && w[n - 1] == '>';
    forall k | 0 <= k < |h| ensures h[k] != '>' { assert h[k] == w[..n - 1][k]; }
    forall k | 1 <= k < |h| ensures h[k] != '<' { assert h[k] == w[1..n][k - 1]; }
    assert h[0] == w[0];
    assert b[x + 1..] == h[1..] && b[x..] == h;
    HeldAt(g, b, x);
  }

  /** One character completes an open tag in the held tail: both filters drop. */
  lemma {:induction false} RaceOpens(g: Tags, b: string, c: string)
    requires g.Lawful() && |c| == 1 && g.HoldShape(b) && FindFirst(g.open, b[g.hold(b)..] + c) < |b[g.hold(b)..] + c|
    ensures var r := Push(g, b[g.hold(b)..], false, c); r.rest == "" && r.dropping
    ensures (b + c)[|b|] == '>'
  {
    var h := b[g.hold(b)..];
    var w := h + c;
    g.HoldLaw(b);
    var o := FindFirst(g.open, w);
    FindFirstIs(g.open, w);
    OpenEnds(g, w[o..]);
    var n := g.open(w[o..]);
    assert w[o..][n - 1] == w[o + n - 1];
    assert forall k | 0 <= k < |h| :: w[k] == h[k];
    assert o + n == |w|;
    DrainStep(g, w);
    assert w[Stretch(g, w)..] == "";
  }

  /** Otherwise the held tail follows the text. */
  lemma {:induction false} RaceGoesOn(g: Tags, b: string, c: string)
    requires g.Lawful() && |c| == 1 && g.HoldShape(b)
    requires FindFirst(g.open, b[g.hold(b)..] + c) == |b[g.hold(b)..] + c|
    ensures g.HoldShape(b + c)
    ensures var r := Push(g, b[g.hold(b)..], false, c); r.rest == (b + c)[g.hold(b + c)..] && !r.dropping
  {
    var p, h := b[..g.hold(b)], b[g.hold(b)..];
    var w := h + c;
    assert b + c == p + w;
    if |h| > 0 { assert w[0] == h[0] == b[g.hold(b)]; } else { assert p == b; }
    g.HoldSkip(p, w);
    g.HoldLaw(w);
    g.HoldLaw(b + c);
    DrainAll(g, w);
    DropSkip(p, w, g.hold(w));
  }

  /** Text that ended with a '>' before the dropping started makes no difference. */
  lemma {:induction false} BothDrop(g: Tags, z: string, y: string, t: string)
    requires g.Lawful() && |z| > 0 && z[|z| - 1] == '>' && FindFirst(g.close, z + y) == |z + y|
    ensures ShownLen(g, z + y, true, Chars(t)) == ShownLen(g, y, true, Chars(t))
    decreases |t|
  {
    if |t| > 0 {
      var c := t[..1];
      ShownFirst(g, z + y, true, c, Chars(t[1..]));
      ShownFirst(g, y, true, c, Chars(t[1..]));
      assert (z + y) + c == z + (y + c);
      NoCloseBefore(g, z, y, c);
      FirstSkip(g.close, z, y + c);
      if FindFirst(g.close, y + c) < |y + c| {
        SameDrop(g, z, y + c);
      } else {
        DropNothing(g, y + c);
        DropNothing(g, z + (y + c));
        BothDrop(g, z, y + c, t[1..]);
      }
    }
  }

  lemma {:induction false} NoCloseBefore(g: Tags, z: string, y: string, c: string)
    requires g.Lawful() && |z| > 0 && z[|z| - 1] == '>' && FindFirst(g.close, z + y) == |z + y|
    ensures NoneBefore(g.close, z + (y + c), |z|)
  {
    FindFirstIs(g.close, z + y);
    forall k | 0 <= k < |z| ensures g.close((z + (y + c))[k..]) == 0 {
      var h := (z + y)[k..];
      assert (z + (y + c))[k..] == h + c;
      assert g.close(h) == 0;
      g.CloseLaw(h, c);
      g.CloseLaw(h + c, "");
      EndsBy(h + c, g.close(h + c), |z| - 1 - k);
    }
  }

  /** A tag ends with its first '>'. */
  lemma {:induction false} EndsBy(w: string, n: nat, m: nat)
    requires m < |w| && w[m] == '>' && n <= |w| && (n > 0 ==> '>' !in w[..n - 1])
    ensures n <= m + 1
  {
    assert n > 0 ==> forall i | 0 <= i < n - 1 :: w[i] == w[..n - 1][i];
  }

  lemma {:induction false} SameDrop(g: Tags, z: string, y: string)
    requires g.Lawful() && FindFirst(g.close, y) < |y| && FindFirst(g.close, z + y) == |z| + FindFirst(g.close, y)
    ensures Drain(g, z + y, true) == Drain(g, y, true)
  {
    var c := FindFirst(g.close, y);
    assert (z + y)[|z| + c..] == y[c..];
    DropSkip(z, y, Dropped(g, y));
  }

  /** Cut after the '<' an open tag holds: its head is put out. */
  lemma {:induction false} TagOffence(g: Tags, s: string) returns (c1: seq<string>, c2: seq<string>)
    requires g.Lawful() && FindFirst(g.open, s) < |s| && '<' in s[FindFirst(g.open, s) + 1..Stretch(g, s)]
    ensures Flatten(c1) == s && Flatten(c2) == s
    ensures ShownLen(g, "", false, c1) < ShownLen(g, "", false, c2)
  {
    var o, e := FindFirst(g.open, s), Stretch(g, s);
    var i :| 0 <= i < e - o - 1 && s[o + 1..e][i] == '<';
    var j := o + 1 + i;
    var a, b, chars := s[..j + 1], s[j + 1..e], Chars(s[e..]);
    c1, c2 := [s[..e]] + chars, [a] + ([b] + chars);
    assert s[..e] == a + b && s == s[..e] + s[e..];
    ChunksFlatten(s[..e], a, b, s[e..]);
    HeadShows(g, s, j);
  }

  lemma {:induction false} HeadShows(g: Tags, s: string, j: nat)
    requires g.Lawful() && FindFirst(g.open, s) < j < Stretch(g, s) && s[j] == '<'
    ensures var e := Stretch(g, s);
            var chars := Chars(s[e..]);
            ShownLen(g, "", false, [s[..e]] + chars) < ShownLen(g, "", false, [s[..j + 1]] + ([s[j + 1..e]] + chars))
  {
    var e := Stretch(g, s);
    var a, b, chars := s[..j + 1], s[j + 1..e], Chars(s[e..]);
    PushOpened(g, s);
    HeadPutOut(g, s, j);
    TagText(g, s);
    TailWorkedOff(g, s, j, e);
    ShownFirst(g, "", false, s[..e], chars);
    ShownFirst(g, "", false, a, [b] + chars);
    ShownFirst(g, "<", false, b, chars);
    FreshRace(g, s[e..]);
  }

  lemma {:induction false} ChunksFlatten(ab: string, a: string, b: string, t: string)
    requires ab == a + b
    ensures Flatten([ab] + Chars(t)) == ab + t && Flatten([a] + ([b] + Chars(t))) == ab + t
  {
    CharsFlatten(t);
    assert ([ab] + Chars(t))[1..] == Chars(t);
    assert ([b] + Chars(t))[1..] == Chars(t);
    assert ([a] + ([b] + Chars(t)))[1..] == [b] + Chars(t);
    assert a + (b + t) == (a + b) + t;
  }

  lemma {:induction false} FreshRace(g: Tags, t: string)
    requires g.Lawful()
    ensures ShownLen(g, "", true, Chars(t)) <= ShownLen(g, "", false, Chars(t))
  {
    Race(g, "", t);
    assert ""[g.hold("")..] == "";
  }

  lemma {:induction false} HeadPutOut(g: Tags, s: string, j: nat)
    requires g.Lawful() && FindFirst(g.open, s) < j < Stretch(g, s) && s[j] == '<'
    ensures Push(g, "", false, s[..j + 1]) == Drained(Remove(g.stray, s[..FindFirst(g.open, s)]) + s[FindFirst(g.open, s)..j], "<", false)
  {
    var o := FindFirst(g.open, s);
    TagText(g, s);
    NoOpenTo(g, s, o, j);
    PushToLt(g, s, j);
    HeadKept(g, s, o, j);
  }

  /** The head of a tag is text without '>'. */
  lemma {:induction false} HeadKept(g: Tags, s: string, o: nat, j: nat)
    requires g.Lawful() && o <= j <= |s| && forall k | o <= k < j :: s[k] != '>'
    ensures Remove(g.stray, s[..j]) == Remove(g.stray, s[..o]) + s[o..j]
  {
    assert s[..j] == s[..o] + s[o..j];
    NoGtSplits(g, s[..o], s[o..j]);
  }

  lemma {:induction false} TailWorkedOff(g: Tags, s: string, j: nat, e: nat)
    requires g.Lawful() && j + 1 < e <= |s| && s[j] == '<' && s[e - 1] == '>' && forall k | j <= k < e - 1 :: s[k] != '>'
    ensures Push(g, "<", false, s[j + 1..e]).rest == ""
  {
    var w := "<" + s[j + 1..e];
    assert w == s[j..e];
    WorkedOff(g, w);
  }

  /** No tag of s opens up to j when none opens before o and no '>' stands between. */
  lemma {:induction false} NoOpenTo(g: Tags, s: string, o: nat, j: nat)
    requires g.Lawful() && o <= j < |s| && o <= FindFirst(g.open, s) && forall k | o <= k <= j :: s[k] != '>'
    ensures FindFirst(g.open, s[..j + 1]) == j + 1
  {
    var a, b := s[..j + 1], s[j + 1..];
    assert s == a + b;
    OpenNoneBefore(g, a, b, o);
    forall k | 0 <= k < |a| ensures g.open(a[k..]) == 0 {
      if k >= o {
        g.OpenLaw(a[k..], "");
        g.StrayLaw(a[k..], "");
      }
    }
    FindFirstUnique(g.open, a, |a|);
  }

  lemma {:induction false} TagText(g: Tags, s: string)
    requires g.Lawful() && FindFirst(g.open, s) < |s|
    ensures var o, e := FindFirst(g.open, s), Stretch(g, s);
            o < e <= |s| && s[e - 1] == '>' && forall k | o <= k < e - 1 :: s[k] != '>'
  {
    var o, e := FindFirst(g.open, s), Stretch(g, s);
    FindFirstIs(g.open, s);
    OpenEnds(g, s[o..]);
    assert s[o..][e - o - 1] == s[e - 1];
    forall k | o <= k < e - 1 ensures s[k] != '>' { assert s[k] == s[o..][..e - o - 1][k - o]; }
  }

  /** A push that ends just after a '<' keeps it back. */
  lemma {:induction false} PushToLt(g: Tags, s: string, j: nat)
    requires g.Lawful() && j < |s| && s[j] == '<' && FindFirst(g.open, s[..j + 1]) == j + 1
    ensures Push(g, "", false, s[..j + 1]) == Drained(Remove(g.stray, s[..j]), "<", false)
    ensures Settled(g, "<", false)
  {
    var a := s[..j + 1];
    assert "" + a == a;
    assert a[j..] == "<" && a[j + 1..] == "";
    HeldAt(g, a, j);
    DrainAll(g, a);
    assert a[..j] == s[..j];
    DrainSettles(g, a, false);
  }

  // ----- A stray tag that holds a '<' -----

  /** A deleted match of p + q that starts at a, after neat ones only, and is not neat. */
  ghost predicate Fails(g: Tags, p: string, q: string, a: nat)
    requires g.Lawful()
  {
    && a < |p| && g.stray(p[a..] + q) > 0
    && (g.stray(p[a..] + q) > |p| - a || '<' in p[a..][1..g.stray(p[a..] + q)])
    && NeatScan(g.stray, p[..a], p[a..] + q)
  }

  lemma {:induction false} ScanFails(g: Tags, p: string, q: string) returns (a: nat)
    requires g.Lawful() && !NeatScan(g.stray, p, q)
    ensures Fails(g, p, q, a)
    decreases |p|
  {
    var m := g.stray(p + q);
    if m > 0 && (m > |p| || '<' in p[1..m]) {
      a := 0;
      assert p[0..] == p;
    } else {
      var k := if m > 0 then m else 1;
      a := ScanFails(g, p[k..], q);
      FailsLater(g, p, q, k, a);
      a := k + a;
    }
  }

  lemma {:induction false} FailsLater(g: Tags, p: string, q: string, k: nat, b: nat)
    requires g.Lawful() && 0 < k <= |p| && Fails(g, p[k..], q, b)
    requires var m := g.stray(p + q); if m > 0 then k == m && '<' !in p[1..m] else k == 1
    ensures Fails(g, p, q, k + b)
  {
    var x, y := p[..k + b], p[k + b..];
    assert p[k..][b..] == y;
    assert x + (y + q) == p + q;
    assert x[k..] == p[k..][..b] && x[1..k] == p[1..k];
  }

  /** Dropping the text up to its first '>' leaves no more to show. */
  lemma {:induction false} RemoveAfter(g: Tags, z: string, k: nat)
    requires g.Lawful() && 0 < k <= |z| && z[k - 1] == '>' && '>' !in z[..k - 1]
    ensures |Remove(g.stray, z[k..])| <= |Remove(g.stray, z)|
    decreases k
  {
    g.StrayLaw(z, "");
    var n := g.stray(z);
    if n > 0 {
      EndsBy(z, n, k - 1);
      EndsBy(z, k, n - 1);
    } else if k > 1 {
      assert z[1..][..k - 2] == z[..k - 1][1..];
      assert z[1..][k - 1..] == z[k..];
      RemoveAfter(g, z[1..], k - 1);
    }
  }

  /** A match that runs over j, the place of a '<', shows less than its head and what follows j do. */
  lemma {:induction false} CutShowsMore(g: Tags, x: string, h: string, z: string)
    requires g.Lawful() && |h| > 0 && g.stray(h + z) > |h| && NeatScan(g.stray, x, h + z)
    ensures |Remove(g.stray, (x + h) + z)| < |Remove(g.stray, x + h)| + |Remove(g.stray, z)|
  {
    Regroup(x, h, z);
    NeatSplits(g, x, h + z);
    HeadGoes(g, h, z);
    NoGtSplits(g, x, h);
  }

  /** A match over h and more shows no more than what is left of z. */
  lemma {:induction false} HeadGoes(g: Tags, h: string, z: string)
    requires g.Lawful() && |h| > 0 && g.stray(h + z) > |h|
    ensures '>' !in h && |Remove(g.stray, h + z)| <= |Remove(g.stray, z)|
  {
    g.StrayLaw(h + z, "");
    var n := g.stray(h + z);
    var k := n - |h|;
    assert forall i | 0 <= i < n - 1 :: (h + z)[i] == (h + z)[..n - 1][i];
    forall i | 0 <= i < |h| ensures h[i] != '>' { assert h[i] == (h + z)[i]; }
    forall i | 0 <= i < k - 1 ensures z[i] != '>' { assert z[i] == (h + z)[|h| + i]; }
    assert (h + z)[n..] == z[k..] && z[k - 1] == (h + z)[n - 1];
    RemoveAfter(g, z, k);
  }

  /** Cut after the '<' a deleted tag holds, or after the '<' of the block it runs over. */
  lemma {:induction false} StrayOffence(g: Tags, s: string, p: string, q: string) returns (c1: seq<string>, c2: seq<string>)
    requires g.Lawful() && |p| <= |s| && p == s[..|p|] && NoneBefore(g.open, s, |p|)
    requires Drain(g, s, false).out == p + q && !NeatScan(g.stray, p, q)
    requires |q| > 0 ==> |p| < |s| && s[|p|] == '<'
    ensures Flatten(c1) == s && Flatten(c2) == s
    ensures ShownLen(g, "", false, c1) < ShownLen(g, "", false, c2)
  {
    var a := ScanFails(g, p, q);
    var j := OffenceAt(g, s, p, q, a);
    StrayAt(g, s, p, q, a, j);
    c1, c2 := [s], [s[..j + 1], s[j + 1..]];
    assert s == s[..j + 1] + s[j + 1..];
    TwoChunks(g, s, s[..j + 1], s[j + 1..]);
  }

  lemma {:induction false} StrayAt(g: Tags, s: string, p: string, q: string, a: nat, j: nat)
    requires g.Lawful() && |p| <= |s| && p == s[..|p|] && NoneBefore(g.open, s, |p|)
    requires Drain(g, s, false).out == p + q && Fails(g, p, q, a)
    requires a < j <= |p| && j < |s| && s[j] == '<' && j < a + g.stray(p[a..] + q)
    ensures var r := Push(g, "", false, s[..j + 1]);
            var t := Push(g, r.rest, r.dropping, s[j + 1..]);
            |Shown(Push(g, "", false, s))| < |Shown(Drained(r.out + t.out, t.rest, t.dropping))|
  {
    var x, h, v := p[..a], s[a..j], s[j..];
    Pieces(s, p, q, a, j);
    NoneFewer(g.open, s, |p|, j);
    assert s[..j + 1] == (x + h) + "<" && s[j + 1..] == v[1..];
    StrayCut(g, x, h, v, p[j..] + q);
  }

  lemma {:induction false} Pieces(s: string, p: string, q: string, a: nat, j: nat)
    requires a <= j <= |p| <= |s| && p == s[..|p|]
    ensures s == (p[..a] + s[a..j]) + s[j..] && |p[..a] + s[a..j]| == j
    ensures p + q == (p[..a] + s[a..j]) + (p[j..] + q)
    ensures p[a..] + q == s[a..j] + (p[j..] + q)
  {
    assert p[a..] == s[a..j] + p[j..];
    assert p == p[..a] + s[a..j] + p[j..];
  }

  lemma {:induction false} NoneFewer(m: Matcher, s: string, i: nat, j: nat)
    requires j <= i <= |s| && NoneBefore(m, s, i)
    ensures NoneBefore(m, s, j)
  {}

  /** The place of the '<' the failing match runs over. */
  lemma {:induction false} OffenceAt(g: Tags, s: string, p: string, q: string, a: nat) returns (j: nat)
    requires g.Lawful() && |p| <= |s| && p == s[..|p|] && Fails(g, p, q, a)
    requires |q| > 0 ==> |p| < |s| && s[|p|] == '<'
    ensures a < j <= |p| && j < |s| && s[j] == '<' && j < a + g.stray(p[a..] + q)
  {
    var n := g.stray(p[a..] + q);
    g.StrayLaw(p[a..] + q, "");
    j := |p|;
    if n <= |p| - a {
      var i :| 0 <= i < n - 1 && p[a..][1..n][i] == '<';
      j := a + 1 + i;
      assert p[a..][1 + i] == p[j];
    }
  }

  lemma {:induction false} StrayCut(g: Tags, x: string, h: string, v: string, z: string)
    requires g.Lawful() && |h| > 0 && |v| > 0 && v[0] == '<' && NoneBefore(g.open, (x + h) + v, |x + h|)
    requires Drain(g, (x + h) + v, false).out == (x + h) + z
    requires g.stray(h + z) > |h| && NeatScan(g.stray, x, h + z)
    ensures var r := Push(g, "", false, (x + h) + "<");
            var t := Push(g, r.rest, r.dropping, v[1..]);
            |Shown(Push(g, "", false, (x + h) + v))| < |Shown(Drained(r.out + t.out, t.rest, t.dropping))|
  {
    CutShowsMore(g, x, h, z);
    OutFrom(g, x + h, v, z);
    PushesAt(g, x + h, v);
  }

  lemma {:induction false} PushesAt(g: Tags, x: string, v: string)
    requires g.Lawful() && |v| > 0 && v[0] == '<' && NoneBefore(g.open, x + v, |x|)
    ensures Push(g, "", false, x + "<") == Drained(Remove(g.stray, x), "<", false)
    ensures var t := Drain(g, v, false);
            Push(g, "<", false, v[1..]) == t.(out := Remove(g.stray, t.out))
    ensures var r := Drain(g, x + v, false);
            Push(g, "", false, x + v) == r.(out := Remove(g.stray, r.out))
  {
    HeadPush(g, x, v);
    PushIsDrain(g, "<", false, v[1..]);
    assert "<" + v[1..] == v && "" + (x + v) == x + v;
  }

  lemma {:induction false} HeadPush(g: Tags, x: string, v: string)
    requires g.Lawful() && |v| > 0 && v[0] == '<' && NoneBefore(g.open, x + v, |x|)
    ensures Push(g, "", false, x + "<") == Drained(Remove(g.stray, x), "<", false) && Settled(g, "<", false)
  {
    var s, j := x + v, |x|;
    FirstAfter(g.open, s, j);
    NoOpenTo(g, s, j, j);
    PushToLt(g, s, j);
    assert s[..j + 1] == x + "<" && s[..j] == x;
  }

  lemma {:induction false} FirstAfter(m: Matcher, s: string, i: nat)
    requires i <= |s| && NoneBefore(m, s, i)
    ensures i <= FindFirst(m, s)
  {
    FindFirstIs(m, s);
    assert FindFirst(m, s) < |s| ==> m(s[FindFirst(m, s)..]) > 0;
  }

  lemma {:induction false} OutFrom(g: Tags, x: string, v: string, z: string)
    requires g.Lawful() && |v| > 0 && v[0] == '<' && NoneBefore(g.open, x + v, |x|)
    requires Drain(g, x + v, false).out == x + z
    ensures var r := Drain(g, v, false);
            r == Drain(g, x + v, false).(out := z)
  {
    DrainSkip(g, x, v);
    Cancel(x, Drain(g, v, false).out, z);
  }

  lemma {:induction false} Cancel(x: string, y: string, z: string)
    requires x + y == x + z
    ensures y == z
  {
    assert (x + y)[|x|..] == y && (x + z)[|x|..] == z;
  }

  lemma {:induction false} TwoChunks(g: Tags, s: string, a: string, b: string)
    requires g.Lawful() && s == a + b
    ensures Flatten([s]) == s && Flatten([a, b]) == s
    ensures PushAll(g, "", false, [s]) == Push(g, "", false, s)
    ensures var r := Push(g, "", false, a);
            var t := Push(g, r.rest, r.dropping, b);
            PushAll(g, "", false, [a, b]) == Drained(r.out + t.out, t.rest, t.dropping)
  {
    OneChunk(g, "", false, s);
    var r := Push(g, "", false, a);
    OneChunk(g, r.rest, r.dropping, b);
    PushFirst(g, "", false, a, [b]);
    assert [a, b] == [a] + [b];
  }

  lemma {:induction false} OneChunk(g: Tags, buf: string, dropping: bool, s: string)
    requires g.Lawful()
    ensures Flatten([s]) == s && PushAll(g, buf, dropping, [s]) == Push(g, buf, dropping, s)
  {
    PushFirst(g, buf, dropping, s, []);
    assert [s] == [s] + [] && s + "" == s;
    assert Push(g, buf, dropping, s).out + "" == Push(g, buf, dropping, s).out;
  }

  // ----- Exactly the neat streams -----

  /** Two cuttings of a stream that is not neat show texts of different lengths: the longer one cuts just after a '<'
      inside a tag, so that the head of the tag is put out as text. */
  lemma {:induction false} Disagreement(g: Tags, s: string, dropping: bool) returns (c1: seq<string>, c2: seq<string>)
    requires g.Lawful() && !Neat(g, s, dropping)
    ensures Flatten(c1) == s && Flatten(c2) == s
    ensures ShownLen(g, "", dropping, c1) < ShownLen(g, "", dropping, c2)
    decreases |s|
  {
    if dropping {
      var d := Dropped(g, s);
      c1, c2 := Disagreement(g, s[d..], false);
      PushDropped(g, s);
      c1, c2 := Later(g, s, true, d, c1, c2);
    } else if FindFirst(g.open, s) == |s| {
      g.HoldLaw(s);
      FindFirstIs(g.open, s);
      var p := s[..g.hold(s)];
      DrainAll(g, s);
      assert p + "" == p;
      c1, c2 := StrayOffence(g, s, p, "");
    } else {
      c1, c2 := OpenedDisagreement(g, s);
    }
  }

  lemma {:induction false} OpenedDisagreement(g: Tags, s: string) returns (c1: seq<string>, c2: seq<string>)
    requires g.Lawful() && FindFirst(g.open, s) < |s| && !Neat(g, s, false)
    ensures Flatten(c1) == s && Flatten(c2) == s
    ensures ShownLen(g, "", false, c1) < ShownLen(g, "", false, c2)
    decreases |s|, 0
  {
    var o, e := FindFirst(g.open, s), Stretch(g, s);
    var q := Drain(g, s[e..], true).out;
    StretchPast(g, s);
    if '<' in s[o + 1..e] {
      c1, c2 := TagOffence(g, s);
    } else if !NeatScan(g.stray, s[..o], q) {
      FindFirstIs(g.open, s);
      OpenEnds(g, s[o..]);
      DrainStep(g, s);
      c1, c2 := StrayOffence(g, s, s[..o], q);
    } else {
      c1, c2 := Disagreement(g, s[e..], true);
      PushOpened(g, s);
      c1, c2 := Later(g, s, false, e, c1, c2);
    }
  }

  /** What differs after a first chunk that leaves nothing buffered differs. */
  lemma {:induction false} Later(g: Tags, s: string, dropping: bool, d: nat, b1: seq<string>, b2: seq<string>)
    returns (c1: seq<string>, c2: seq<string>)
    requires g.Lawful() && d <= |s| && Flatten(b1) == s[d..] && Flatten(b2) == s[d..]
    requires var r := Push(g, "", dropping, s[..d]);
             r.rest == "" && ShownLen(g, "", r.dropping, b1) < ShownLen(g, "", r.dropping, b2)
    ensures Flatten(c1) == s && Flatten(c2) == s
    ensures ShownLen(g, "", dropping, c1) < ShownLen(g, "", dropping, c2)
  {
    c1, c2 := [s[..d]] + b1, [s[..d]] + b2;
    PushFirst(g, "", dropping, s[..d], b1);
    PushFirst(g, "", dropping, s[..d], b2);
    ShownFirst(g, "", dropping, s[..d], b1);
    ShownFirst(g, "", dropping, s[..d], b2);
    assert s == s[..d] + s[d..];
  }

  /** Every cutting of a stream gives the visible text and the state of one push if and only if no tag
      that is taken or deleted holds a '<' after its first character. */
  lemma {:induction false} InvarianceIsExact(g: Tags, s: string)
    requires g.Lawful()
    ensures (forall chunks | Flatten(chunks) == s :: PushAll(g, "", false, chunks) == Push(g, "", false, s))
       <==> Neat(g, s, false)
  {
    if Neat(g, s, false) {
      forall chunks | Flatten(chunks) == s ensures PushAll(g, "", false, chunks) == Push(g, "", false, s) {
        assert "" + s == s;
        StreamInvariance(g, "", false, chunks);
      }
    } else {
      var c1, c2 := Disagreement(g, s, false);
    }
  }

  /** Every cutting shows the stripped text if and only if the stream is neat and no text it puts out
      runs into an unclosed tag; its blocks close with their own names. */
  lemma {:induction false} BatchIsExact(g: Tags, s: string)
    requires g.Lawful() && Paired(g, s)
    ensures (forall chunks | Flatten(chunks) == s :: Shown(PushAll(g, "", false, chunks)) == Strip(g, s))
       <==> Neat(g, s, false) && Unjoined(g, s)
  {
    if Neat(g, s, false) {
      InvarianceIsExact(g, s);
      NeatIsBatch(g, s);
      DrainSettles(g, "", false);
      assert "" + s == s;
      PushIsDrain(g, "", false, s);
      TwoChunks(g, s, s, "");
      assert s + "" == s;
    } else {
      var c1, c2 := Disagreement(g, s, false);
    }
  }

  /** Where the first block is closed by a foreign name only, every cutting shows the stripped text if and only if the
      stream is neat and shows nothing after that block. */
  lemma {:induction false} ForeignCloseIsExact(g: Tags, s: string)
    requires g.Lawful() && ForeignClose(g, s)
    ensures (forall chunks | Flatten(chunks) == s :: Shown(PushAll(g, "", false, chunks)) == Strip(g, s))
       <==> Neat(g, s, false) && Shown(Push(g, "", false, AfterBlock(g, s))) == ""
  {
    if Neat(g, s, false) {
      InvarianceIsExact(g, s);
      ForeignCloseStrips(g, s);
      DrainSettles(g, "", false);
      var rest := AfterBlock(g, s);
      assert "" + s == s && "" + rest == rest;
      PushIsDrain(g, "", false, s);
      PushIsDrain(g, "", false, rest);
      TwoChunks(g, s, s, "");
      assert s + "" == s;
    } else {
      var c1, c2 := Disagreement(g, s, false);
    }
  }
}
