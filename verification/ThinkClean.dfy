/**
 Streams with no '<' inside an unfinished tag: neat, and shown as the batch stripping leaves them.
 */
module ThinkClean {
  import opened TextScan
  import opened ThinkFilters
  import opened ThinkBatch
  import opened ThinkExact

  /** No '<' stands inside text that could still become a tag. */
  ghost predicate Tidy(g: Tags, v: string) {
    forall i, j {:trigger g.partial(v[i..j])} | 0 <= i < j < |v| && v[j] == '<' :: !g.partial(v[i..j])
  }

  /** The visible stretches of s are tidy; nothing is asked of the text inside a think block. */
  ghost predicate Clean(g: Tags, s: string, dropping: bool)
    requires g.Lawful()
    decreases |s|
  {
    if |s| == 0 then true
    else if dropping then
      Dropped(g, s) > 0 ==> Clean(g, s[Dropped(g, s)..], false)
    else
      var e := Stretch(g, s);
      Tidy(g, s[..e]) && (FindFirst(g.open, s) < |s| ==> Clean(g, s[e..], true))
  }

  /** No suffix of p can be continued into a tag. */
  ghost predicate Sealed(g: Tags, p: string) {
    forall i {:trigger g.partial(p[i..])} | 0 <= i < |p| :: !g.partial(p[i..])
  }

  lemma {:induction false} SealedJoin(g: Tags, p: string, q: string)
    requires g.Lawful() && Sealed(g, p) && Sealed(g, q)
    ensures Sealed(g, p + q)
  {
    forall i | 0 <= i < |p + q| ensures !g.partial((p + q)[i..]) {
      if i < |p| {
        assert (p + q)[i..] == p[i..] + q;
        g.PartialLaw(p[i..], q);
        assert !g.partial(p[i..]);
      } else {
        assert (p + q)[i..] == q[i - |p|..];
        assert !g.partial(q[i - |p|..]);
      }
    }
  }

  /** The text before a '<' of a tidy stretch is sealed. */
  lemma {:induction false} TidySeals(g: Tags, v: string, k: nat)
    requires Tidy(g, v) && k < |v| && v[k] == '<'
    ensures Sealed(g, v[..k])
  {
    forall i | 0 <= i < k ensures !g.partial(v[..k][i..]) {
      assert v[..k][i..] == v[i..k];
      assert !g.partial(v[i..k]);
    }
  }

  /** Text with no held tail is sealed. */
  lemma {:induction false} ClosedSeals(g: Tags, v: string)
    requires g.Lawful() && g.hold(v) == |v|
    ensures Sealed(g, v)
  {
    forall i | 0 <= i < |v| ensures !g.partial(v[i..]) { g.HoldSeal(v, i); }
  }

  // ----- Clean streams are neat -----

  /** The part of a tag before a character of its inside is unfinished. */
  lemma {:induction false} HeadIsPartial(g: Tags, w: string, j: nat)
    requires g.Lawful() && 0 < j < g.stray(w)
    ensures j <= |w| && g.partial(w[..j])
  {
    g.StrayLaw(w, "");
    var h := w[..j];
    assert w == h + w[j..];
    assert forall k | 0 <= k < j :: h[k] == w[..g.stray(w) - 1][k];
    g.StrayLaw(h, w[j..]);
  }

  lemma {:induction false} TidyTag(g: Tags, p: string, n: nat)
    requires g.Lawful() && Tidy(g, p) && n == g.stray(p)
    ensures n <= |p| && (n > 0 ==> '<' !in p[1..n])
  {
    g.StrayLaw(p, "");
    forall j | 1 <= j < n ensures p[j] != '<' {
      assert p[0..j] == p[..j];
      HeadIsPartial(g, p, j);
    }
  }

  lemma {:induction false} TidyScans(g: Tags, p: string, q: string)
    requires g.Lawful() && Tidy(g, p) && Sealed(g, p)
    ensures NeatScan(g.stray, p, q)
    decreases |p|
  {
    if |p| > 0 {
      assert p[0..] == p;
      assert !g.partial(p[0..]);
      g.StrayLaw(p, q);
      var n := g.stray(p);
      TidyTag(g, p, n);
      var k := if n > 0 then n else 1;
      TidyTail(g, p, k);
      TidyScans(g, p[k..], q);
    }
  }

  lemma {:induction false} TidyTail(g: Tags, p: string, k: nat)
    requires k <= |p|
    ensures Tidy(g, p) ==> Tidy(g, p[k..])
    ensures Sealed(g, p) ==> Sealed(g, p[k..])
  {
    forall i, j | Tidy(g, p) && 0 <= i < j < |p| - k && p[k..][j] == '<' ensures !g.partial(p[k..][i..j]) {
      assert p[k..][i..j] == p[k + i..k + j] && p[k + j] == '<';
    }
    forall i | Sealed(g, p) && 0 <= i < |p| - k ensures !g.partial(p[k..][i..]) {
      assert p[k..][i..] == p[k + i..];
    }
  }

  lemma {:induction false} TidyHead(g: Tags, p: string, k: nat)
    requires Tidy(g, p) && k <= |p|
    ensures Tidy(g, p[..k])
  {
    forall i, j | 0 <= i < j < k && p[..k][j] == '<' ensures !g.partial(p[..k][i..j]) {
      assert p[..k][i..j] == p[i..j];
    }
  }

  /** What is put out of a tidy stretch is sealed. */
  lemma {:induction false} HeldSeals(g: Tags, s: string)
    requires g.Lawful() && Tidy(g, s)
    ensures g.HoldShape(s) && Sealed(g, s[..g.hold(s)]) && Tidy(g, s[..g.hold(s)])
  {
    g.HoldLaw(s);
    TidyHead(g, s, g.hold(s));
    if g.hold(s) < |s| {
      TidySeals(g, s, g.hold(s));
    } else {
      assert s[..|s|] == s;
      ClosedSeals(g, s);
    }
  }

  /** In a tidy stretch the open tag is neat and the text before it sealed. */
  lemma {:induction false} OpenedSeals(g: Tags, s: string)
    requires g.Lawful() && FindFirst(g.open, s) < |s| && Tidy(g, s[..Stretch(g, s)])
    ensures var o, e := FindFirst(g.open, s), Stretch(g, s);
            '<' !in s[o + 1..e] && Sealed(g, s[..o]) && Tidy(g, s[..o])
  {
    var o, e := FindFirst(g.open, s), Stretch(g, s);
    TagPart(g, s);
    TidyOpening(g, s[..o], s[o..e], s[e..]);
  }

  lemma {:induction false} TagPart(g: Tags, s: string)
    requires g.Lawful() && FindFirst(g.open, s) < |s|
    ensures var o, e := FindFirst(g.open, s), Stretch(g, s);
            && o < e <= |s| && g.open(s[o..e] + s[e..]) == e - o
            && s[..o] + s[o..e] == s[..e] && s[o..e][1..] == s[o + 1..e]
  {
    var o, e := FindFirst(g.open, s), Stretch(g, s);
    FindFirstIs(g.open, s);
    assert s[o..e] + s[e..] == s[o..];
  }

  lemma {:induction false} TidyOpening(g: Tags, p: string, tag: string, rest: string)
    requires g.Lawful() && |tag| > 0 && g.open(tag + rest) == |tag|
    requires Tidy(g, p + tag)
    ensures '<' !in tag[1..] && Sealed(g, p) && Tidy(g, p)
  {
    g.OpenLaw(tag, rest);
    OpenEnds(g, tag);
    assert (p + tag)[|p|] == tag[0] && (p + tag)[..|p|] == p && (p + tag)[|p|..] == tag;
    TidySeals(g, p + tag, |p|);
    TidyHead(g, p + tag, |p|);
    TidyTail(g, p + tag, |p|);
    TidyTag(g, tag, |tag|);
  }

  /** A stream with no '<' inside an unfinished tag is neat, and what it puts out is sealed. */
  lemma {:induction false} CleanIsNeat(g: Tags, s: string, dropping: bool)
    requires g.Lawful() && Clean(g, s, dropping)
    ensures Neat(g, s, dropping) && Sealed(g, Drain(g, s, dropping).out)
    decreases |s|
  {
    if |s| == 0 || (dropping && Dropped(g, s) == 0) {
    } else if dropping {
      CleanIsNeat(g, s[Dropped(g, s)..], false);
    } else if FindFirst(g.open, s) < |s| {
      StretchPast(g, s);
      OpenedSeals(g, s);
      CleanIsNeat(g, s[Stretch(g, s)..], true);
      var p, r := s[..FindFirst(g.open, s)], Drain(g, s[Stretch(g, s)..], true).out;
      TidyScans(g, p, r);
      SealedJoin(g, p, r);
      DrainStep(g, s);
    } else {
      assert s[..|s|] == s;
      HeldSeals(g, s);
      TidyScans(g, s[..g.hold(s)], "");
      DrainAll(g, s);
    }
  }

  lemma {:induction false} UnclosedOpens(g: Tags, s: string)
    requires g.Lawful()
    ensures |Unclosed(g, s)| > 0 ==> g.open(Unclosed(g, s)) > 0
    decreases |s|
  {
    var o := FindFirst(g.open, s);
    if o < |s| {
      FindFirstIs(g.open, s);
      StretchPast(g, s);
      var body := s[Stretch(g, s)..];
      if Dropped(g, body) > 0 { UnclosedOpens(g, body[Dropped(g, body)..]); }
    }
  }

  /** Sealed text runs into nothing. */
  lemma {:induction false} CleanIsUnjoined(g: Tags, s: string)
    requires g.Lawful() && Clean(g, s, false)
    ensures Unjoined(g, s)
  {
    var out, w := Drain(g, s, false).out, Unclosed(g, s);
    CleanIsNeat(g, s, false);
    OutIsPlain(g, s, false);
    UnclosedOpens(g, s);
    forall k | 0 <= k < |out| ensures g.open((out + w)[k..]) == 0 {
      assert (out + w)[k..] == out[k..] + w;
      g.OpenLaw(out[k..], w);
      assert !g.partial(out[k..]);
      assert g.open(out[k..]) == 0;
    }
    FirstSkip(g.open, out, w);
  }

  /** However such a stream is cut, it gives the answer of one push, and if its blocks close with their own
      names it shows the stripped text. */
  lemma {:induction false} CleanStreams(g: Tags, s: string, chunks: seq<string>)
    requires g.Lawful() && Clean(g, s, false) && Flatten(chunks) == s
    ensures PushAll(g, "", false, chunks) == Push(g, "", false, s)
    ensures Paired(g, s) ==> Shown(PushAll(g, "", false, chunks)) == Strip(g, s)
  {
    CleanIsNeat(g, s, false);
    CleanIsUnjoined(g, s);
    InvarianceIsExact(g, s);
    if Paired(g, s) { BatchIsExact(g, s); }
  }
}
