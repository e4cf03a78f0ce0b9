/** The three think/reasoning tag patterns of the executor, as matchers over text. */
module ThinkTags {
  import opened TextScan

  /** Case folding and the word and space classes belong to the regular expression engine: every result holds for
      all tables. */
  datatype CharTables = CharTables(fold: char -> char, word: char -> bool, space: char -> bool) {

    /** The brackets and the slash fold to themselves and are not white space. */
    ghost predicate Standard() {
      && fold('<') == '<' && fold('>') == '>' && fold('/') == '/'
      && !space('<') && !space('>')
    }

    predicate Reads(s: string, name: string) {
      |name| <= |s| && forall k | 0 <= k < |name| :: fold(s[k]) == name[k]
    }

    /** Length of the tag name at the start of s, or 0. The length also identifies the name. */
    function NameLen(s: string): (n: nat)
      ensures n <= |s|
    {
      if Reads(s, "think") then 5 else if Reads(s, "reasoning") then 9 else 0
    }

    /** Name, word boundary, attributes and '>': the tail shared by open and stray tags. */
    function BodyLen(s: string): (n: nat)
      ensures n <= |s|
    {
      var n := NameLen(s);
      if n == 0 || n == |s| || word(s[n]) then 0
      else var g := n + IndexOfGt(s[n..]); if g == |s| then 0 else g + 1
    }

    function OpenLen(s: string): (n: nat)
      ensures n <= |s|
    {
      if |s| == 0 || s[0] != '<' then 0
      else var b := BodyLen(s[1..]); if b == 0 then 0 else 1 + b
    }

    function StrayLen(s: string): (n: nat)
      ensures n <= |s|
    {
      if |s| == 0 || s[0] != '<' then 0
      else if |s| > 1 && s[1] == '/' then var b := BodyLen(s[2..]); if b == 0 then 0 else 2 + b
      else OpenLen(s)
    }

    function CloseLen(s: string): (n: nat)
      ensures n <= |s|
    {
      if |s| < 2 || s[0] != '<' || s[1] != '/' then 0
      else
        var n := NameLen(s[2..]);
        if n == 0 then 0
        else
          var e := 2 + n + SpaceRun(s[2 + n..]);
          if e < |s| && s[e] == '>' then e + 1 else 0
    }

    /** The open tag at the start of s and the close tag at the start of t carry the same name. */
    predicate SameName(s: string, t: string) {
      |s| > 1 && |t| > 2 && NameLen(s[1..]) == NameLen(t[2..])
    }

    function SpaceRun(s: string): (n: nat)
      ensures n <= |s|
    {
      if |s| > 0 && space(s[0]) then 1 + SpaceRun(s[1..]) else 0
    }

    /** b is a beginning of a tag name, or a whole name followed by a word boundary. */
    predicate ViableBody(b: string, name: string) {
      if |b| <= |name| then forall k | 0 <= k < |b| :: fold(b[k]) == name[k]
      else Reads(b, name) && !word(b[|name|])
    }

    /** t starts a tag that more text could still complete. */
    predicate Partial(t: string) {
      && |t| > 0 && t[0] == '<'
      && (forall k | 0 <= k < |t| :: t[k] != '>')
      && var b := if |t| > 1 && t[1] == '/' then t[2..] else t[1..];
         ViableBody(b, "think") || ViableBody(b, "reasoning")
    }
  }

  function IndexOfGt(s: string): (n: nat)
    ensures n <= |s| && (n < |s| ==> s[n] == '>')
    ensures forall k | 0 <= k < n :: s[k] != '>'
  {
    if |s| == 0 || s[0] == '>' then 0 else 1 + IndexOfGt(s[1..])
  }

  // ----- Locality: a tag is decided by its own characters -----

  lemma {:induction false} GtLocal(s: string, t: string)
    ensures IndexOfGt(s) < |s| ==> IndexOfGt(s + t) == IndexOfGt(s)
    ensures IndexOfGt(s) == |s| ==> IndexOfGt(s + t) >= |s|
  {
    var u, g, h := s + t, IndexOfGt(s), IndexOfGt(s + t);
    assert forall k | 0 <= k < |s| :: u[k] == s[k];
    assert g < |s| ==> u[g] == '>';
    assert h < |u| ==> u[h] == '>';
  }

  lemma {:induction false} ReadsExcludes(x: CharTables, s: string, name: string)
    requires x.Standard() && x.Reads(s, name) && name in {"think", "reasoning"}
    ensures forall k | 0 <= k < |name| :: s[k] != '>' && s[k] != '<' && s[k] != '/'
  {
    forall k | 0 <= k < |name| ensures s[k] != '>' && s[k] != '<' && s[k] != '/' {
      assert x.fold(s[k]) == name[k];
      assert name[k] !in ['<', '>', '/'];
    }
  }

  lemma {:induction false} NameLocal(x: CharTables, s: string, t: string)
    requires x.Standard()
    ensures x.NameLen(s) > 0 ==> x.NameLen(s + t) == x.NameLen(s) <= |s|
    ensures x.NameLen(s) > 0 ==> forall k | 0 <= k < x.NameLen(s) :: s[k] != '>' && s[k] != '<' && s[k] != '/'
    ensures x.NameLen(s) == 0 && x.NameLen(s + t) > 0
            ==> |s| < x.NameLen(s + t) && (x.ViableBody(s, "think") || x.ViableBody(s, "reasoning"))
  {
    var u := s + t;
    assert forall k | 0 <= k < |s| :: u[k] == s[k];
    if x.Reads(s, "think") { ReadsExcludes(x, s, "think"); }
    else if x.Reads(s, "reasoning") {
      ReadsExcludes(x, s, "reasoning");
      assert x.fold(s[0]) == "reasoning"[0];
      assert !x.Reads(u, "think") by { assert "think"[0] == 't'; }
    }
  }

  lemma {:induction false} BodyLocal(x: CharTables, s: string, t: string)
    requires x.Standard()
    ensures x.BodyLen(s) > 0 ==> x.BodyLen(s + t) == x.BodyLen(s) <= |s|
    ensures x.BodyLen(s) > 0 ==> s[x.BodyLen(s) - 1] == '>' && forall k | 0 <= k < x.BodyLen(s) - 1 :: s[k] != '>'
    ensures x.BodyLen(s) == 0 && x.BodyLen(s + t) > 0
            ==> (forall k | 0 <= k < |s| :: s[k] != '>') && (x.ViableBody(s, "think") || x.ViableBody(s, "reasoning"))
  {
    NameLocal(x, s, t);
    var u := s + t;
    var n := x.NameLen(u);
    if n > 0 {
      NameLocal(x, u, "");
      assert u + "" == u;
      if n < |s| {
        assert u[n..] == s[n..] + t;
        GtLocal(s[n..], t);
        forall k | 0 <= k < |s| && x.BodyLen(s) == 0 && x.BodyLen(u) > 0 ensures s[k] != '>' {
          if k < n { assert u[k] != '>'; } else { assert s[k] == s[n..][k - n]; }
        }
        if x.NameLen(s) == n {
          var g := IndexOfGt(s[n..]);
          forall k | 0 <= k < n + g ensures s[k] != '>' {
            if k >= n { assert s[k] == s[n..][k - n]; }
          }
        }
      } else {
        forall k | 0 <= k < |s| ensures s[k] != '>' { assert s[k] == u[k]; }
      }
    }
  }

  /** Extending the text keeps an open tag, and only a partial tag can become one. */
  lemma {:induction false} OpenLocal(x: CharTables, s: string, t: string)
    requires x.Standard()
    ensures x.OpenLen(s) > 0 ==> x.StrayLen(s) == x.OpenLen(s) == x.OpenLen(s + t)
    ensures |s| > 0 && x.OpenLen(s) == 0 && x.OpenLen(s + t) > 0 ==> x.Partial(s)
    ensures x.OpenLen(s) > 0 ==> s[x.OpenLen(s) - 1] == '>' && forall k | 0 <= k < x.OpenLen(s) - 1 :: s[k] != '>'
    ensures x.OpenLen(s) > 0 ==> x.CloseLen(s) == 0
  {
    if |s| > 0 && s[0] == '<' {
      assert (s + t)[1..] == s[1..] + t;
      BodyLocal(x, s[1..], t);
      NameLocal(x, s[1..], t);
      NameLocal(x, s[1..] + t, "");
      assert s[1..] + t + "" == s[1..] + t;
      if x.OpenLen(s) > 0 {
        forall k | 0 <= k < x.OpenLen(s) - 1 ensures s[k] != '>' { if k > 0 { assert s[k] == s[1..][k - 1]; } }
      } else if x.OpenLen(s + t) > 0 {
        forall k | 0 <= k < |s| ensures s[k] != '>' { if k > 0 { assert s[k] == s[1..][k - 1]; } }
        if |s| > 1 { assert (s[1..] + t)[0] == s[1]; }
      }
    }
  }

  lemma {:induction false} StrayLocal(x: CharTables, s: string, t: string)
    requires x.Standard()
    ensures x.StrayLen(s) > 0 ==> x.StrayLen(s + t) == x.StrayLen(s)
    ensures |s| > 0 && x.StrayLen(s) == 0 && x.StrayLen(s + t) > 0 ==> x.Partial(s)
    ensures x.StrayLen(s) > 0 ==> s[x.StrayLen(s) - 1] == '>' && forall k | 0 <= k < x.StrayLen(s) - 1 :: s[k] != '>'
  {
    if |s| > 1 && s[0] == '<' && s[1] == '/' {
      StraySlash(x, s, t);
    } else {
      OpenLocal(x, s, t);
    }
  }

  lemma {:induction false} StraySlash(x: CharTables, s: string, t: string)
    requires x.Standard() && |s| > 1 && s[0] == '<' && s[1] == '/'
    ensures x.StrayLen(s) > 0 ==> x.StrayLen(s + t) == x.StrayLen(s)
    ensures x.StrayLen(s) == 0 && x.StrayLen(s + t) > 0 ==> x.Partial(s)
    ensures x.StrayLen(s) > 0 ==> s[x.StrayLen(s) - 1] == '>' && forall k | 0 <= k < x.StrayLen(s) - 1 :: s[k] != '>'
  {
    var b := s[2..];
    assert (s + t)[2..] == b + t;
    BodyLocal(x, b, t);
    assert forall k | 2 <= k < |s| :: s[k] == b[k - 2];
  }

  lemma {:induction false} PartialPrefix(x: CharTables, s: string, t: string)
    requires |s| > 0 && x.Partial(s + t)
    ensures x.Partial(s)
  {
    var u := s + t;
    assert forall k | 0 <= k < |s| :: u[k] == s[k];
  }

  lemma {:induction false} CloseLocal(x: CharTables, s: string, t: string)
    requires x.Standard()
    ensures x.CloseLen(s) > 0 ==> x.CloseLen(s + t) == x.CloseLen(s)
    ensures forall k | 0 < k < x.CloseLen(s) :: s[k] != '<'
    ensures x.CloseLen(s) > 0 ==> s[x.CloseLen(s) - 1] == '>' && forall k | 0 <= k < x.CloseLen(s) - 1 :: s[k] != '>'
  {
    if x.CloseLen(s) > 0 {
      var n := x.NameLen(s[2..]);
      assert (s + t)[2..] == s[2..] + t && (s + t)[2 + n..] == s[2 + n..] + t;
      NameLocal(x, s[2..], t);
      SpaceLocal(x, s[2 + n..], t);
      CloseText(x, s);
    }
  }

  lemma {:induction false} CloseText(x: CharTables, s: string)
    requires x.Standard() && x.CloseLen(s) > 0
    ensures forall k | 0 < k < x.CloseLen(s) :: s[k] != '<'
    ensures s[x.CloseLen(s) - 1] == '>' && forall k | 0 <= k < x.CloseLen(s) - 1 :: s[k] != '>'
  {
    var name := s[2..];
    var n := x.NameLen(name);
    var blanks := s[2 + n..];
    NameLocal(x, name, "");
    SpaceLocal(x, blanks, "");
    assert forall k | 2 <= k < 2 + n :: s[k] == name[k - 2];
    assert forall k | 2 + n <= k < |s| :: s[k] == blanks[k - 2 - n];
  }

  lemma {:induction false} SpaceLocal(x: CharTables, s: string, t: string)
    requires x.Standard()
    ensures x.SpaceRun(s) < |s| ==> x.SpaceRun(s + t) == x.SpaceRun(s)
    ensures forall k | 0 <= k < x.SpaceRun(s) :: s[k] != '<' && s[k] != '>'
  {
    if |s| > 0 {
      assert (s + t)[1..] == s[1..] + t;
      SpaceLocal(x, s[1..], t);
    }
  }

  /** A close tag of s + t that ends inside s is a close tag of s. */
  lemma {:induction false} CloseShrinks(x: CharTables, s: string, t: string)
    requires x.Standard() && 0 < x.CloseLen(s + t) <= |s|
    ensures x.CloseLen(s) > 0
  {
    var u := s + t;
    assert u[2..] == s[2..] + t;
    NameLocal(x, s[2..], t);
    var n := x.NameLen(u[2..]);
    assert u[2 + n..] == s[2 + n..] + t;
    SpaceLocal(x, s[2 + n..], t);
    SpaceFull(x, s[2 + n..], t);
  }

  /** Text after a later '<' cannot create a close tag before it. */
  lemma {:induction false} CloseDecided(x: CharTables, s: string, t: string, j: nat)
    requires x.Standard() && 0 < j < |s| && s[j] == '<' && x.CloseLen(s) == 0
    ensures x.CloseLen(s + t) == 0
  {
    CloseLocal(x, s + t, "");
    assert (s + t)[j] == '<';
    if x.CloseLen(s + t) > 0 {
      CloseShrinks(x, s, t);
    }
  }

  lemma {:induction false} SpaceFull(x: CharTables, s: string, t: string)
    ensures x.SpaceRun(s) == |s| ==> x.SpaceRun(s + t) >= |s|
  {
    if |s| > 0 {
      assert (s + t)[1..] == s[1..] + t;
      SpaceFull(x, s[1..], t);
    }
  }

  /** Position of the last '<', or |s|. */
  function LastLt(s: string): (i: nat)
    ensures i <= |s| && (i < |s| ==> s[i] == '<')
  {
    if |s| == 0 then 0
    else if s[|s| - 1] == '<' then |s| - 1
    else var i := LastLt(s[..|s| - 1]); if i == |s| - 1 then |s| else i
  }

  /** Where the text that must wait for more input starts: a last '<' with no '>' after it. */
  function HoldFrom(s: string): (k: nat)
    ensures k <= |s| && (k < |s| ==> s[k] == '<')
  {
    var i := LastLt(s);
    if '>' in s[i..] then |s| else i
  }

  lemma {:induction false} LastLtIs(s: string)
    ensures forall k | 0 <= k < |s| && s[k] == '<' :: k <= LastLt(s) < |s|
  {
    if |s| > 0 && s[|s| - 1] != '<' { LastLtIs(s[..|s| - 1]); }
  }

  lemma {:induction false} HoldHasNoGt(s: string)
    ensures '>' !in s[HoldFrom(s)..]
  {}

  lemma {:induction false} HoldSkip(p: string, v: string)
    requires (|v| > 0 && v[0] == '<') || HoldFrom(p) == |p|
    ensures HoldFrom(p + v) == |p| + HoldFrom(v)
  {
    var u := p + v;
    LastLtIs(u);
    LastLtIs(v);
    LastLtIs(p);
    var i, j := LastLt(u), LastLt(v);
    assert j < |v| ==> u[|p| + j] == '<';
    assert i < |u| ==> if i >= |p| then v[i - |p|] == '<' else p[i] == '<';
    if i >= |p| {
      assert u[i..] == v[i - |p|..];
    } else {
      assert LastLt(p) < |p| ==> u[LastLt(p)] == '<';
      assert u[i..] == p[i..] + v;
    }
  }

  lemma {:induction false} HoldSealed(x: CharTables, v: string, i: nat)
    requires HoldFrom(v) == |v| && i < |v|
    ensures !x.Partial(v[i..])
  {
    LastLtIs(v);
    var l := LastLt(v);
    if v[i] == '<' {
      assert v[i..] == v[i..l] + v[l..];
      assert '>' in v[l..] && '>' in v[i..];
    }
  }

  /** The think and reasoning tags are such a language. */
  function Patterns(x: CharTables): Tags {
    Tags(x.OpenLen, x.CloseLen, x.StrayLen, x.SameName, x.Partial, HoldFrom)
  }

  lemma {:induction false} ThinkOpenLaws(x: CharTables)
    requires x.Standard()
    ensures Patterns(x).OpenLaws()
  {
    var g := Patterns(x);
    forall s: string, t: string ensures g.Grows(g.open, s, t) && g.OpenShape(s) { OpenLocal(x, s, t); }
  }

  lemma {:induction false} ThinkStrayLaws(x: CharTables)
    requires x.Standard()
    ensures Patterns(x).StrayLaws()
  {
    var g := Patterns(x);
    forall s: string, t: string ensures g.Grows(g.stray, s, t) { StrayLocal(x, s, t); }
    forall s: string ensures g.StrayShape(s) && g.StrayEnds(s) { StrayLast(x, s); }
  }

  lemma {:induction false} StrayLast(x: CharTables, s: string)
    requires x.Standard()
    ensures Patterns(x).StrayEnds(s)
  {
    StrayLocal(x, s, "");
  }

  lemma {:induction false} ThinkCloseLaws(x: CharTables)
    requires x.Standard()
    ensures Patterns(x).CloseLaws()
  {
    var g := Patterns(x);
    forall s: string, t: string ensures g.CloseGrows(s, t) { CloseGrown(x, s, t); }
    forall s: string ensures g.CloseShape(s) { CloseLocal(x, s, ""); }
  }

  lemma {:induction false} CloseGrown(x: CharTables, s: string, t: string)
    requires x.Standard()
    ensures Patterns(x).CloseGrows(s, t)
  {
    CloseLocal(x, s, t);
    if |s| > 0 && '<' in s[1..] && x.CloseLen(s) == 0 {
      var j :| 0 <= j < |s[1..]| && s[1..][j] == '<';
      CloseDecided(x, s, t, j + 1);
    }
    if 0 < x.CloseLen(s + t) <= |s| { CloseShrinks(x, s, t); }
  }

  lemma {:induction false} ThinkPartialLaws(x: CharTables)
    requires x.Standard()
    ensures Patterns(x).PartialLaws()
  {
    var g := Patterns(x);
    forall s: string, t: string ensures g.PartialPrefix(s, t) && g.PartialShape(s) && g.PartialEnds(s) {
      if |s| > 0 && g.partial(s + t) { PartialPrefix(x, s, t); }
    }
  }

  lemma {:induction false} ThinkHoldLaws(x: CharTables)
    ensures Patterns(x).HoldLaws()
  {
    var g := Patterns(x);
    forall s: string ensures g.HoldShape(s) && g.HoldEnds(s) && g.HoldWaits(s) {
      HoldHasNoGt(s);
      LastLtIs(s);
    }
    forall s: string, i: nat ensures g.HoldSeals(s, i) {
      if HoldFrom(s) == |s| && i < |s| { HoldSealed(x, s, i); }
    }
    forall p: string, v: string ensures g.HoldSkips(p, v) {
      if (|v| > 0 && v[0] == '<') || HoldFrom(p) == |p| { HoldSkip(p, v); }
    }
  }

  lemma {:induction false} PatternsLawful(x: CharTables)
    requires x.Standard()
    ensures Patterns(x).Lawful()
  {
    ThinkOpenLaws(x);
    ThinkStrayLaws(x);
    ThinkCloseLaws(x);
    ThinkPartialLaws(x);
    ThinkHoldLaws(x);
  }

  function Language(x: CharTables): (g: Tags)
    requires x.Standard()
    ensures g.Lawful()
  {
    PatternsLawful(x);
    Patterns(x)
  }
}
