/**
 * The path-template scanner shared by both revisions: every match of the
 * pattern `:[a-zA-Z0-9]*` in a route path is replaced by the first value
 * bound to its name (the match without its leading colon).
 *
 * `Tokenize` is the scan itself: the path cut into the pattern's matches,
 * found leftmost first and each as long as possible, and the single bytes
 * between them. `ReplaceRouteMatches` renders the tokens with the values.
 */
module Placeholders {
  import opened Text
  import opened Wire

  datatype Token = Lit(c: char) | Param(name: string)

  /** The end of the longest run of `[a-zA-Z0-9]` in `p` that starts at `i`. */
  function AlphaNumEnd(p: string, i: nat): (j: nat)
    requires i <= |p|
    ensures i <= j <= |p|
    ensures forall k :: i <= k < j ==> IsAlphaNum(p[k])
    ensures j == |p| || !IsAlphaNum(p[j])
    decreases |p| - i
  {
    if i < |p| && IsAlphaNum(p[i]) then AlphaNumEnd(p, i + 1) else i
  }

  function Tokenize(p: string): seq<Token>
    decreases |p|
  {
    if p == [] then []
    else if p[0] == ':' then
      var j := AlphaNumEnd(p, 1);
      [Param(p[1..j])] + Tokenize(p[j..])
    else [Lit(p[0])] + Tokenize(p[1..])
  }

  function TokenText(t: Token): string
  {
    match t
    case Lit(c) => [c]
    case Param(name) => ":" + name
  }

  function Untokenize(ts: seq<Token>): string
  {
    if ts == [] then "" else TokenText(ts[0]) + Untokenize(ts[1..])
  }

  /**
   * What the pattern's leftmost-longest matching guarantees of a cut: no
   * literal byte is a colon (each colon starts a match), every name is
   * alphanumeric, and a name is never followed by an alphanumeric byte.
   */
  ghost predicate WellFormed(ts: seq<Token>)
  {
    && (forall i :: 0 <= i < |ts| && ts[i].Lit? ==> ts[i].c != ':')
    && (forall i, k :: 0 <= i < |ts| && ts[i].Param? && 0 <= k < |ts[i].name| ==> IsAlphaNum(ts[i].name[k]))
    && (forall i :: 0 <= i < |ts| - 1 && ts[i].Param? && ts[i + 1].Lit? ==> !IsAlphaNum(ts[i + 1].c))
  }

  /** Every name the path mentions is bound to a non-empty list; otherwise the Go code indexes out of range. */
  predicate ParamsBound(p: string, m: UrlValues)
  {
    forall t :: t in Tokenize(p) && t.Param? ==> t.name in m && |m[t.name]| > 0
  }

  predicate TokensBound(ts: seq<Token>, m: UrlValues)
  {
    forall t :: t in ts && t.Param? ==> t.name in m && |m[t.name]| > 0
  }

  function Render(ts: seq<Token>, m: UrlValues): string
    requires TokensBound(ts, m)
  {
    if ts == [] then ""
    else
      assert ts[0] in ts;
      (match ts[0]
       case Lit(c) => [c]
       case Param(name) => m[name][0])
      + Render(ts[1..], m)
  }

  /** `routerParamReg.ReplaceAllFunc([]byte(path), replaceRouteMatches(m))`. */
  function ReplaceRouteMatches(p: string, m: UrlValues): string
    requires ParamsBound(p, m)
  {
    Render(Tokenize(p), m)
  }

  // ----- the scan covers the path exactly and finds the pattern's matches -----

  /** The path starts with a match of the pattern: its text is ':' and the name, then the rest of the path. */
  lemma CoversParam(p: string, j: nat)
    requires p != [] && p[0] == ':' && j == AlphaNumEnd(p, 1)
    requires Untokenize(Tokenize(p[j..])) == p[j..]
    ensures Untokenize(Tokenize(p)) == p
  {
    var ts := [Param(p[1..j])] + Tokenize(p[j..]);
    assert Tokenize(p) == ts;
    assert ts[1..] == Tokenize(p[j..]);
    assert p == ":" + p[1..j] + p[j..];
  }

  /** The path starts with a literal character, copied as it is. */
  lemma CoversLit(p: string)
    requires p != [] && p[0] != ':'
    requires Untokenize(Tokenize(p[1..])) == p[1..]
    ensures Untokenize(Tokenize(p)) == p
  {
    var ts := [Lit(p[0])] + Tokenize(p[1..]);
    assert Tokenize(p) == ts;
    assert ts[1..] == Tokenize(p[1..]);
    assert p == [p[0]] + p[1..];
  }

  lemma {:induction false} TokenizeCovers(p: string)
    ensures Untokenize(Tokenize(p)) == p
    decreases |p|
  {
    if p != [] {
      if p[0] == ':' {
        var j := AlphaNumEnd(p, 1);
        TokenizeCovers(p[j..]);
        CoversParam(p, j);
      } else {
        TokenizeCovers(p[1..]);
        CoversLit(p);
      }
    }
  }

  lemma {:induction false} TokenizeWellFormed(p: string)
    ensures WellFormed(Tokenize(p))
    decreases |p|
  {
    if p != [] {
      var ts := Tokenize(p);
      if p[0] == ':' {
        var j := AlphaNumEnd(p, 1);
        TokenizeWellFormed(p[j..]);
        var rest := Tokenize(p[j..]);
        assert ts == [Param(p[1..j])] + rest;
        if |rest| > 0 && rest[0].Lit? {
          assert p[j..] != [] && p[j..][0] != ':';
          assert rest[0].c == p[j];
        }
      } else {
        TokenizeWellFormed(p[1..]);
        assert ts == [Lit(p[0])] + Tokenize(p[1..]);
      }
    }
  }

  /** A run of alphanumerics that ends at the string's end or at another byte is the longest. */
  lemma {:induction false} AlphaNumEndAt(p: string, i: nat, j: nat)
    requires i <= j <= |p|
    requires forall k :: i <= k < j ==> IsAlphaNum(p[k])
    requires j == |p| || !IsAlphaNum(p[j])
    ensures AlphaNumEnd(p, i) == j
    decreases j - i
  {
    if i < j {
      AlphaNumEndAt(p, i + 1, j);
    }
  }

  /** The cut is unique: any well-formed cut of `p` is the scan's. */
  lemma {:induction false} TokenizeUnique(p: string, ts: seq<Token>)
    requires Untokenize(ts) == p
    requires WellFormed(ts)
    ensures ts == Tokenize(p)
    decreases |ts|
  {
    if ts != [] {
      var rest := ts[1..];
      assert WellFormed(rest) by {
        forall i | 0 <= i < |rest| - 1 && rest[i].Param? && rest[i + 1].Lit?
          ensures !IsAlphaNum(rest[i + 1].c)
        {
          assert rest[i] == ts[i + 1] && rest[i + 1] == ts[i + 2];
        }
      }
      var q := Untokenize(rest);
      TokenizeUnique(q, rest);
      match ts[0]
      case Lit(c) =>
        assert p == [c] + q;
        assert ts[0].c != ':';
        assert p[1..] == q;
      case Param(name) =>
        assert p == ":" + name + q;
        var j := 1 + |name|;
        assert p[1..j] == name && p[j..] == q;
        forall k | 1 <= k < j ensures IsAlphaNum(p[k]) {
          assert p[k] == name[k - 1];
        }
        if j < |p| {
          assert q != [] && rest != [];
          assert p[j] == q[0] == TokenText(rest[0])[0];
          if rest[0].Lit? {
            assert !IsAlphaNum(rest[0].c);
          }
        }
        AlphaNumEndAt(p, 1, j);
    }
  }

  // ----- substitution -----

  lemma {:induction false} RenderAppend(a: seq<Token>, b: seq<Token>, m: UrlValues)
    requires TokensBound(a, m) && TokensBound(b, m)
    ensures TokensBound(a + b, m)
    ensures Render(a + b, m) == Render(a, m) + Render(b, m)
    decreases |a|
  {
    if a != [] {
      assert (a + b)[0] == a[0];
      assert (a + b)[1..] == a[1..] + b;
      assert TokensBound(a[1..], m) by {
        forall t | t in a[1..] ensures t in a { }
      }
      RenderAppend(a[1..], b, m);
    } else {
      assert a + b == b;
    }
  }

  /** Bytes outside the matches are copied: a path without a colon comes out unchanged. */
  lemma {:induction false} NoPlaceholderUnchanged(p: string, m: UrlValues)
    requires forall k :: 0 <= k < |p| ==> p[k] != ':'
    ensures ParamsBound(p, m)
    ensures ReplaceRouteMatches(p, m) == p
    decreases |p|
  {
    if p != [] {
      NoPlaceholderUnchanged(p[1..], m);
      assert Tokenize(p) == [Lit(p[0])] + Tokenize(p[1..]);
      assert Tokenize(p)[1..] == Tokenize(p[1..]);
    }
  }

  /** Each match is replaced by the first value of its name; replacing each name by itself gives the path back. */
  lemma {:induction false} RenderIdentity(ts: seq<Token>, m: UrlValues)
    requires TokensBound(ts, m)
    requires forall t :: t in ts && t.Param? ==> m[t.name][0] == ":" + t.name
    ensures Render(ts, m) == Untokenize(ts)
    decreases |ts|
  {
    if ts != [] {
      assert ts[0] in ts;
      assert TokensBound(ts[1..], m) by {
        forall t | t in ts[1..] ensures t in ts { }
      }
      forall t | t in ts[1..] && t.Param? ensures m[t.name][0] == ":" + t.name {
        assert t in ts;
      }
      RenderIdentity(ts[1..], m);
    }
  }

  lemma IdentitySubstitution(p: string, m: UrlValues)
    requires ParamsBound(p, m)
    requires forall t :: t in Tokenize(p) && t.Param? ==> m[t.name][0] == ":" + t.name
    ensures ReplaceRouteMatches(p, m) == p
  {
    RenderIdentity(Tokenize(p), m);
    TokenizeCovers(p);
  }

  /** When no first value contains a colon, no match of the pattern is left. */
  lemma {:induction false} RenderNoColon(ts: seq<Token>, m: UrlValues)
    requires TokensBound(ts, m)
    requires forall t :: t in ts && t.Lit? ==> t.c != ':'
    requires forall t, k :: t in ts && t.Param? && 0 <= k < |m[t.name][0]| ==> m[t.name][0][k] != ':'
    ensures forall k :: 0 <= k < |Render(ts, m)| ==> Render(ts, m)[k] != ':'
    decreases |ts|
  {
    if ts != [] {
      assert ts[0] in ts;
      assert TokensBound(ts[1..], m) by {
        forall t | t in ts[1..] ensures t in ts { }
      }
      forall t | t in ts[1..] ensures t in ts { }
      RenderNoColon(ts[1..], m);
    }
  }

  lemma NoMatchLeft(p: string, m: UrlValues)
    requires ParamsBound(p, m)
    requires forall name, k :: name in m && |m[name]| > 0 && 0 <= k < |m[name][0]| ==> m[name][0][k] != ':'
    ensures forall k :: 0 <= k < |ReplaceRouteMatches(p, m)| ==> ReplaceRouteMatches(p, m)[k] != ':'
  {
    TokenizeWellFormed(p);
    var ts := Tokenize(p);
    forall t | t in ts && t.Lit? ensures t.c != ':' {
      var i :| 0 <= i < |ts| && ts[i] == t;
    }
    RenderNoColon(ts, m);
  }

  /** A worked instance: `/:id/:doc` cuts into two literals and two matches. */
  lemma TwoParamsTokens()
    ensures Tokenize("/:id/:doc") == [Lit('/'), Param("id"), Lit('/'), Param("doc")]
  {
    var a := [Lit('/'), Param("id"), Lit('/'), Param("doc")];
    assert Untokenize(a[3..]) == ":doc";
    assert Untokenize(a[2..]) == "/:doc";
    assert Untokenize(a[1..]) == ":id/:doc";
    assert Untokenize(a) == "/:id/:doc";
    assert WellFormed(a);
    TokenizeUnique("/:id/:doc", a);
  }

  /** ... and with `id=42` and `doc=7` it becomes `/42/7`. */
  lemma TwoParamsExample()
    ensures ParamsBound("/:id/:doc", map["id" := ["42"], "doc" := ["7"]])
    ensures ReplaceRouteMatches("/:id/:doc", map["id" := ["42"], "doc" := ["7"]]) == "/42/7"
  {
    TwoParamsTokens();
    TwoParamsRender(map["id" := ["42"], "doc" := ["7"]]);
  }

  lemma TwoParamsRender(m: UrlValues)
    requires m == map["id" := ["42"], "doc" := ["7"]]
    ensures TokensBound([Lit('/'), Param("id"), Lit('/'), Param("doc")], m)
    ensures Render([Lit('/'), Param("id"), Lit('/'), Param("doc")], m) == "/42/7"
  {
    var a := [Lit('/'), Param("id"), Lit('/'), Param("doc")];
    assert TokensBound(a, m) by {
      forall t | t in a && t.Param? ensures t.name in m && |m[t.name]| > 0 {
        assert t == Param("id") || t == Param("doc");
      }
    }
    assert a[1..] == [Param("id"), Lit('/'), Param("doc")];
    assert a[1..][1..] == [Lit('/'), Param("doc")];
    assert a[1..][1..][1..] == [Param("doc")];
    assert Render([Param("doc")], m) == "7";
    assert Render([Lit('/'), Param("doc")], m) == "/7";
    assert Render([Param("id"), Lit('/'), Param("doc")], m) == "42/7";
  }
}
