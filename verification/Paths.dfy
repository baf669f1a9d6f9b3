/** Key paths: the slash-separated strings under which a configuration is published.

    Every string is the join of exactly one sequence of slash-free segments, so prefix
    matching on keys (KEYS "p/" followed by a star) can be decided on segments. */
module Paths {

  /** No separator inside: the standing assumption on names. */
  predicate Plain(s: string)
  {
    '/' !in s
  }

  predicate AllPlain(p: seq<string>)
  {
    forall i :: 0 <= i < |p| ==> Plain(p[i])
  }

  function Join(p: seq<string>): string
    requires |p| > 0
  {
    if |p| == 1 then p[0] else Join(p[..|p| - 1]) + "/" + p[|p| - 1]
  }

  /** One more character at the end of a list of parts. */
  function Push(sep: char, r: seq<string>, c: char): (r': seq<string>)
    requires |r| > 0
    ensures |r'| > 0
  {
    if c == sep then r + [""] else r[..|r| - 1] + [r[|r| - 1] + [c]]
  }

  /** strings.Split for a one-character separator. */
  function SplitOn(sep: char, s: string): (r: seq<string>)
    ensures |r| > 0
  {
    if s == "" then [""] else Push(sep, SplitOn(sep, s[..|s| - 1]), s[|s| - 1])
  }

  function Split(s: string): (r: seq<string>)
    ensures |r| > 0
  {
    SplitOn('/', s)
  }

  lemma {:induction false} SplitPlain(s: string)
    ensures AllPlain(Split(s))
  {
    if s != "" {
      SplitPlain(s[..|s| - 1]);
    }
  }

  lemma {:induction false} SplitOnPlain(sep: char, s: string)
    requires sep !in s
    ensures SplitOn(sep, s) == [s]
  {
    if s != "" {
      SplitOnPlain(sep, s[..|s| - 1]);
      assert s == s[..|s| - 1] + [s[|s| - 1]];
    }
  }

  lemma SplitOnSnoc(sep: char, s: string, c: char)
    ensures SplitOn(sep, s + [c]) == Push(sep, SplitOn(sep, s), c)
  {
    assert (s + [c])[..|s|] == s;
  }

  lemma PushRight(sep: char, a: seq<string>, b: seq<string>, c: char)
    requires |b| > 0
    ensures Push(sep, a + b, c) == a + Push(sep, b, c)
  {
  }

  lemma {:induction false} SplitOnConcat(sep: char, s: string, t: string)
    ensures SplitOn(sep, s + [sep] + t) == SplitOn(sep, s) + SplitOn(sep, t)
  {
    SplitOnSnoc(sep, s, sep);
    if t == "" {
      assert s + [sep] + t == s + [sep];
    } else {
      var t', c := t[..|t| - 1], t[|t| - 1];
      assert s + [sep] + t == (s + [sep] + t') + [c];
      calc {
        SplitOn(sep, s + [sep] + t);
        { SplitOnSnoc(sep, s + [sep] + t', c); }
        Push(sep, SplitOn(sep, s + [sep] + t'), c);
        { SplitOnConcat(sep, s, t'); }
        Push(sep, SplitOn(sep, s) + SplitOn(sep, t'), c);
        { PushRight(sep, SplitOn(sep, s), SplitOn(sep, t'), c); }
        SplitOn(sep, s) + SplitOn(sep, t);
      }
    }
  }

  lemma {:induction false} SplitJoin(p: seq<string>)
    requires |p| > 0 && AllPlain(p)
    ensures Split(Join(p)) == p
  {
    if |p| == 1 {
      SplitOnPlain('/', p[0]);
    } else {
      var q := p[..|p| - 1];
      SplitJoin(q);
      SplitOnConcat('/', Join(q), p[|p| - 1]);
      SplitOnPlain('/', p[|p| - 1]);
      assert p == q + [p[|p| - 1]];
    }
  }

  lemma {:induction false} JoinSplit(s: string)
    ensures Join(Split(s)) == s
  {
    if s != "" {
      var s', c := s[..|s| - 1], s[|s| - 1];
      JoinSplit(s');
      var r := Split(s');
      assert s == s' + [c];
      if c == '/' {
        assert (r + [""])[..|r|] == r;
      } else {
        var r' := r[..|r| - 1] + [r[|r| - 1] + [c]];
        assert r'[..|r'| - 1] == r[..|r| - 1];
        if |r| == 1 {
        } else {
          assert Join(r') == Join(r[..|r| - 1]) + "/" + (r[|r| - 1] + [c]);
          assert Join(r') == (Join(r[..|r| - 1]) + "/" + r[|r| - 1]) + [c];
        }
      }
    }
  }

  /** joinPath on strings is appending a segment. */
  lemma JoinSnoc(p: seq<string>, c: string)
    requires |p| > 0
    ensures Join(p + [c]) == Join(p) + "/" + c
  {
    assert (p + [c])[..|p|] == p;
  }

  lemma JoinOne(s: string)
    ensures Join([s]) == s
  {
  }

  /** One more segment at the end of a key. */
  lemma SplitSegment(path: string, name: string)
    requires Plain(name)
    ensures Split(path + "/" + name) == Split(path) + [name]
  {
    SplitOnConcat('/', path, name);
    SplitOnPlain('/', name);
    assert path + "/" + name == path + ['/'] + name;
  }

  lemma {:induction false} JoinConcat(p: seq<string>, q: seq<string>)
    requires |p| > 0 && |q| > 0
    ensures Join(p + q) == Join(p) + "/" + Join(q)
  {
    if |q| == 1 {
      JoinSnoc(p, q[0]);
      assert p + q == p + [q[0]];
    } else {
      var q' := q[..|q| - 1];
      JoinConcat(p, q');
      assert (p + q)[..|p + q| - 1] == p + q';
      assert Join(p + q) == Join(p) + "/" + Join(q') + "/" + q[|q| - 1];
      assert Join(p) + "/" + (Join(q') + "/" + q[|q| - 1]) == Join(p) + "/" + Join(q') + "/" + q[|q| - 1];
    }
  }

  lemma SplitInjective(s: string, t: string)
    requires Split(s) == Split(t)
    ensures s == t
  {
    JoinSplit(s);
    JoinSplit(t);
  }

  /** `s` lies strictly below the path `p`. */
  predicate Below(p: seq<string>, s: string)
  {
    p < Split(s)
  }

  /** The glob p/STAR selects exactly the keys strictly below p, for every key in the store. */
  lemma GlobIsBelow(p: seq<string>, s: string)
    requires |p| > 0 && AllPlain(p)
    ensures Join(p) + "/" <= s <==> Below(p, s)
  {
    if Join(p) + "/" <= s {
      GlobImpliesBelow(p, s);
    }
    if Below(p, s) {
      BelowImpliesGlob(p, s);
    }
  }

  lemma GlobImpliesBelow(p: seq<string>, s: string)
    requires |p| > 0 && AllPlain(p) && Join(p) + "/" <= s
    ensures Below(p, s)
  {
    SplitJoin(p);
    var t := s[|Join(p)| + 1..];
    assert s == Join(p) + ['/'] + t;
    SplitOnConcat('/', Join(p), t);
  }

  lemma BelowImpliesGlob(p: seq<string>, s: string)
    requires |p| > 0 && Below(p, s)
    ensures Join(p) + "/" <= s
  {
    JoinSplit(s);
    var q := Split(s)[|p|..];
    assert Split(s) == p + q;
    JoinConcat(p, q);
  }

  // ---------- decimal indices ----------

  function Digit(d: nat): char
    requires d < 10
  {
    "0123456789"[d]
  }

  lemma DigitInjective(a: nat, b: nat)
    requires a < 10 && b < 10 && Digit(a) == Digit(b)
    ensures a == b
  {
  }

  /** strconv / %d for a slice index. */
  function Dec(n: nat): (r: string)
    ensures |r| > 0 && forall c :: c in r ==> '0' <= c <= '9'
  {
    if n < 10 then [Digit(n)] else Dec(n / 10) + [Digit(n % 10)]
  }

  lemma DecPlain(n: nat)
    ensures Plain(Dec(n))
  {
  }

  lemma {:induction false} DecInjective(a: nat, b: nat)
    requires Dec(a) == Dec(b)
    ensures a == b
  {
    var x, y := Dec(a), Dec(b);
    assert x[|x| - 1] == Digit(a % 10) && y[|y| - 1] == Digit(b % 10);
    DigitInjective(a % 10, b % 10);
    if a >= 10 && b >= 10 {
      assert x[..|x| - 1] == Dec(a / 10) && y[..|y| - 1] == Dec(b / 10);
      DecInjective(a / 10, b / 10);
    }
  }

  // ---------- names ----------

  const DOCKER := "@docker"

  /** strings.TrimSuffix(name, "@docker") */
  function StripDocker(s: string): (r: string)
    ensures Plain(s) ==> Plain(r)
  {
    if |s| >= |DOCKER| && s[|s| - |DOCKER|..] == DOCKER then s[..|s| - |DOCKER|] else s
  }

  /** `n` is `s` without a final "@docker", if it has one. */
  ghost predicate Bare(s: string, n: string)
  {
    s == n + "@docker" || (s == n && forall p: string :: s != p + "@docker")
  }

  /** The suffix is taken off once; every other name is kept whole. */
  lemma StripIsBare(s: string, n: string)
    ensures StripDocker(s) == n <==> Bare(s, n)
  {
    if s == n + "@docker" {
      assert s[|s| - 7..] == "@docker" && s[..|s| - 7] == n;
    }
    if |s| >= 7 && s[|s| - 7..] == "@docker" {
      assert s == s[..|s| - 7] + "@docker";
    } else {
      forall p: string ensures s != p + "@docker" {
        assert (p + "@docker")[|p|..] == "@docker";
      }
    }
  }
}
