/** The filename template of the S3 cache read as a sequence of pieces:
    literal text and `{name}` tokens. On such a template the chain of
    string substitutions that builds a key replaces every token by its value
    in one pass, which `Fill` states without any string search. */
module S3Template {
  import opened Text
  import opened S3Keys

  datatype Piece = Lit(text: string) | Tok(name: string)

  function Token(name: string): string { "{" + name + "}" }

  function PieceText(p: Piece): string
  {
    match p
    case Lit(s) => s
    case Tok(n) => Token(n)
  }

  /** The template text the pieces spell. */
  function Render(ps: seq<Piece>): string
  {
    if |ps| == 0 then "" else PieceText(ps[0]) + Render(ps[1..])
  }

  /** Literal text holds no '{', and a token's name neither brace: every '{'
      of the text opens a token. */
  predicate WellFormed(ps: seq<Piece>)
  {
    forall i | 0 <= i < |ps| ::
      (ps[i].Lit? ==> '{' !in ps[i].text) && (ps[i].Tok? ==> '{' !in ps[i].name && '}' !in ps[i].name)
  }

  function SubstPiece(p: Piece, name: string, v: string): Piece
  {
    if p == Tok(name) then Lit(v) else p
  }

  /** Every `name` token of the pieces turned into the literal `v`. */
  function Subst(ps: seq<Piece>, name: string, v: string): (r: seq<Piece>)
    ensures |r| == |ps|
    ensures forall i | 0 <= i < |ps| :: r[i] == SubstPiece(ps[i], name, v)
  {
    if |ps| == 0 then [] else [SubstPiece(ps[0], name, v)] + Subst(ps[1..], name, v)
  }

  /** What a token of the template stands for in the key of tile `t`:
      `{x}`, `{y}`, `{z}` the indices; `{inv_x}`, `{inv_y}`, `{inv_z}` the
      indices counted from the far end, but only in a template without the
      plain token of that axis (`hasX`, `hasY`, `hasZ`), and otherwise left
      as they are; `{dim}` the
      dimension string when the tile has a dimension table. Any other token
      stays in the key. */
  function TokenValue(name: string, t: TileRef, hasX: bool, hasY: bool, hasZ: bool): string
    requires 0 <= t.z < |t.levels|
  {
    if name == "tileset" then t.tileset
    else if name == "grid" then t.grid
    else if name == "ext" then Ext(t)
    else if name == "x" && hasX then IntToDec(t.x)
    else if name == "inv_x" && !hasX then IntToDec(InvIndex(t.levels[t.z].maxx, t.x))
    else if name == "y" && hasY then IntToDec(t.y)
    else if name == "inv_y" && !hasY then IntToDec(InvIndex(t.levels[t.z].maxy, t.y))
    else if name == "z" && hasZ then IntToDec(t.z)
    else if name == "inv_z" && !hasZ then IntToDec(InvIndex(|t.levels|, t.z))
    else if name == "dim" && t.dims.Some? then DimString(t.dims.value)
    else Token(name)
  }

  function PieceValue(p: Piece, t: TileRef, hasX: bool, hasY: bool, hasZ: bool): string
    requires 0 <= t.z < |t.levels|
  {
    match p
    case Lit(s) => s
    case Tok(n) => TokenValue(n, t, hasX, hasY, hasZ)
  }

  /** The key: literal text as it is and every token by its value. */
  function Fill(ps: seq<Piece>, t: TileRef, hasX: bool, hasY: bool, hasZ: bool): string
    requires 0 <= t.z < |t.levels|
  {
    if |ps| == 0 then ""
    else PieceValue(ps[0], t, hasX, hasY, hasZ) + Fill(ps[1..], t, hasX, hasY, hasZ)
  }

  // ---------------------------------------------------------------------------
  // ReplaceAll and Contains on rendered pieces

  /** One token never starts where another is written. */
  lemma TokenNotPrefix(name: string, other: string, rest: string)
    requires '}' !in name && '}' !in other && name != other
    ensures !IsPrefix(Token(name), Token(other) + rest)
  {
    var pat, s := Token(name), Token(other) + rest;
    var m, k := |name|, |other|;
    if m == k && |pat| <= |s| {
      forall j | 0 <= j < m ensures pat[j + 1] == name[j] && s[j + 1] == other[j] {}
    } else if m < k {
      assert pat[m + 1] == '}' && s[m + 1] == other[m];
    } else if k < m && |pat| <= |s| {
      assert s[k + 1] == '}' && pat[k + 1] == name[k];
    }
  }

  lemma ReplaceAllOtherToken(name: string, other: string, rep: string, rest: string)
    requires '}' !in name && '{' !in other && '}' !in other && name != other
    ensures ReplaceAll(Token(other) + rest, Token(name), rep) == Token(other) + ReplaceAll(rest, Token(name), rep)
  {
    var pat, s := Token(name), Token(other) + rest;
    var lit := other + "}";
    assert s == ['{'] + (lit + rest);
    assert Token(other) == ['{'] + lit;
    ReplaceAllLiteral(lit, pat, rep, rest);
    if |s| >= |pat| {
      TokenNotPrefix(name, other, rest);
      assert s[1..] == lit + rest;
    }
  }

  /** Replacing a token in the text is substituting it among the pieces. */
  lemma {:induction false} ReplaceAllRender(ps: seq<Piece>, name: string, v: string)
    requires WellFormed(ps) && '{' !in name && '}' !in name
    ensures ReplaceAll(Render(ps), Token(name), v) == Render(Subst(ps, name, v))
  {
    if |ps| > 0 {
      var rest := Render(ps[1..]);
      assert WellFormed(ps[1..]) by {
        forall i | 0 <= i < |ps| - 1 ensures ps[1..][i] == ps[i + 1] {}
      }
      ReplaceAllRender(ps[1..], name, v);
      assert Subst(ps, name, v)[1..] == Subst(ps[1..], name, v);
      match ps[0]
      case Lit(s) =>
        assert '{' !in s;
        ReplaceAllLiteral(s, Token(name), v, rest);
      case Tok(n) =>
        if n == name {
          ReplaceAllAtPrefix(Token(name), v, rest);
        } else {
          ReplaceAllOtherToken(name, n, v, rest);
        }
    }
  }

  lemma ContainsRender(ps: seq<Piece>, name: string)
    requires WellFormed(ps) && '{' !in name && '}' !in name
    ensures Contains(Render(ps), Token(name)) <==> Tok(name) in ps
  {
    if Tok(name) in ps {
      TokenOccurs(ps, name);
    } else {
      NoTokenNoOccurrence(ps, name);
    }
  }

  lemma {:induction false} TokenOccurs(ps: seq<Piece>, name: string)
    requires Tok(name) in ps
    ensures Contains(Render(ps), Token(name))
  {
    var pat, h, rest := Token(name), PieceText(ps[0]), Render(ps[1..]);
    assert Render(ps) == h + rest;
    if ps[0] == Tok(name) {
      assert (h + rest)[0..|pat|] == h;
      assert OccursAt(h + rest, pat, 0);
    } else {
      assert ps == [ps[0]] + ps[1..];
      TokenOccurs(ps[1..], name);
      var i :| 0 <= i <= |rest| - |pat| && OccursAt(rest, pat, i);
      assert (h + rest)[i + |h|..i + |h| + |pat|] == rest[i..i + |pat|];
      assert OccursAt(h + rest, pat, i + |h|);
    }
  }

  lemma {:induction false} NoTokenNoOccurrence(ps: seq<Piece>, name: string)
    requires WellFormed(ps) && '}' !in name && Tok(name) !in ps
    ensures !Contains(Render(ps), Token(name))
  {
    if |ps| > 0 {
      var pat, h, rest := Token(name), PieceText(ps[0]), Render(ps[1..]);
      assert Render(ps) == h + rest;
      assert WellFormed(ps[1..]) by {
        forall i | 0 <= i < |ps| - 1 ensures ps[1..][i] == ps[i + 1] {}
      }
      assert Tok(name) !in ps[1..] by {
        forall i | 0 <= i < |ps| - 1 ensures ps[1..][i] == ps[i + 1] {}
      }
      NoTokenNoOccurrence(ps[1..], name);
      forall i | 0 <= i <= |h + rest| - |pat|
        ensures !OccursAt(h + rest, pat, i)
      {
        if i < |h| {
          NotInPiece(ps[0], name, rest, i);
        } else if OccursAt(h + rest, pat, i) {
          assert (h + rest)[i..i + |pat|] == rest[i - |h|..i - |h| + |pat|];
          assert OccursAt(rest, pat, i - |h|);
        }
      }
    }
  }

  /** No other piece holds the start of a token. */
  lemma NotInPiece(p: Piece, name: string, rest: string, i: int)
    requires 0 <= i < |PieceText(p)| && p != Tok(name) && '}' !in name
    requires p.Lit? ==> '{' !in p.text
    requires p.Tok? ==> '{' !in p.name && '}' !in p.name
    ensures !OccursAt(PieceText(p) + rest, Token(name), i)
  {
    var pat, s := Token(name), PieceText(p) + rest;
    if p.Lit? {
      assert s[i] == p.text[i];
    } else if i == 0 {
      TokenNotPrefix(name, p.name, rest);
    } else {
      assert s[i] == PieceText(p)[i] == (p.name + "}")[i - 1];
      assert s[i] == '}' || s[i] == p.name[i - 1];
    }
  }

  lemma NoBraceInDec(n: int)
    ensures '{' !in IntToDec(n) && '}' !in IntToDec(n)
  {
    var s := IntToDec(n);
    forall i | 0 <= i < |s| ensures s[i] != '{' && s[i] != '}' {
      if n >= 0 {
        assert IsDigit(s[i]);
      } else if i > 0 {
        assert s[i] == NatToDec(-n)[i - 1];
        assert IsDigit(NatToDec(-n)[i - 1]);
      }
    }
  }

  lemma SubstWellFormed(ps: seq<Piece>, name: string, v: string)
    requires WellFormed(ps) && '{' !in v
    ensures WellFormed(Subst(ps, name, v))
  {
  }

  /** A substitution keeps every other token. */
  lemma SubstKeeps(ps: seq<Piece>, name: string, v: string, n: string)
    requires n != name
    ensures Tok(n) in Subst(ps, name, v) <==> Tok(n) in ps
  {
    var r := Subst(ps, name, v);
    if Tok(n) in ps {
      var i :| 0 <= i < |ps| && ps[i] == Tok(n);
      assert r[i] == Tok(n);
    }
    if Tok(n) in r {
      var i :| 0 <= i < |r| && r[i] == Tok(n);
      assert ps[i] == Tok(n);
    }
  }

  /** The pieces after the substitutions, in the order the key builder makes
      them. */
  function Substituted(ps: seq<Piece>, t: TileRef, hasX: bool, hasY: bool, hasZ: bool): (r: seq<Piece>)
    requires 0 <= t.z < |t.levels|
    ensures |r| == |ps|
  {
    var q1 := Subst(ps, "tileset", t.tileset);
    var q2 := Subst(q1, "grid", t.grid);
    var q3 := Subst(q2, "ext", Ext(t));
    var q4 := if hasX then Subst(q3, "x", IntToDec(t.x))
              else Subst(q3, "inv_x", IntToDec(InvIndex(t.levels[t.z].maxx, t.x)));
    var q5 := if hasY then Subst(q4, "y", IntToDec(t.y))
              else Subst(q4, "inv_y", IntToDec(InvIndex(t.levels[t.z].maxy, t.y)));
    var q6 := if hasZ then Subst(q5, "z", IntToDec(t.z))
              else Subst(q5, "inv_z", IntToDec(InvIndex(|t.levels|, t.z)));
    if t.dims.Some? then Subst(q6, "dim", DimString(t.dims.value)) else q6
  }

  lemma {:induction false} RenderPointwise(qs: seq<Piece>, ps: seq<Piece>, t: TileRef, hasX: bool, hasY: bool, hasZ: bool)
    requires 0 <= t.z < |t.levels| && |qs| == |ps|
    requires forall i | 0 <= i < |ps| :: PieceText(qs[i]) == PieceValue(ps[i], t, hasX, hasY, hasZ)
    ensures Render(qs) == Fill(ps, t, hasX, hasY, hasZ)
  {
    if |ps| > 0 {
      assert forall i | 0 <= i < |ps| - 1 :: qs[1..][i] == qs[i + 1] && ps[1..][i] == ps[i + 1];
      RenderPointwise(qs[1..], ps[1..], t, hasX, hasY, hasZ);
      assert PieceText(qs[0]) == PieceValue(ps[0], t, hasX, hasY, hasZ);
    }
  }

  lemma SubstitutedFill(ps: seq<Piece>, t: TileRef, hasX: bool, hasY: bool, hasZ: bool)
    requires 0 <= t.z < |t.levels|
    ensures Render(Substituted(ps, t, hasX, hasY, hasZ)) == Fill(ps, t, hasX, hasY, hasZ)
  {
    var r := Substituted(ps, t, hasX, hasY, hasZ);
    forall i | 0 <= i < |ps| ensures PieceText(r[i]) == PieceValue(ps[i], t, hasX, hasY, hasZ) {
      SubstitutedAt(ps, t, hasX, hasY, hasZ, i);
    }
    RenderPointwise(r, ps, t, hasX, hasY, hasZ);
  }

  lemma SubstitutedAt(ps: seq<Piece>, t: TileRef, hasX: bool, hasY: bool, hasZ: bool, i: int)
    requires 0 <= t.z < |t.levels| && 0 <= i < |ps|
    ensures PieceText(Substituted(ps, t, hasX, hasY, hasZ)[i]) == PieceValue(ps[i], t, hasX, hasY, hasZ)
  {
    PieceChain(ps[i], t, hasX, hasY, hasZ);
  }

  /** The substitutions, one piece at a time. */
  function ChainPiece(p: Piece, t: TileRef, hasX: bool, hasY: bool, hasZ: bool): Piece
    requires 0 <= t.z < |t.levels|
  {
    var maxx, maxy := t.levels[t.z].maxx, t.levels[t.z].maxy;
    var p1 := SubstPiece(p, "tileset", t.tileset);
    var p2 := SubstPiece(p1, "grid", t.grid);
    var p3 := SubstPiece(p2, "ext", Ext(t));
    var p4 := if hasX then SubstPiece(p3, "x", IntToDec(t.x))
              else SubstPiece(p3, "inv_x", IntToDec(InvIndex(maxx, t.x)));
    var p5 := if hasY then SubstPiece(p4, "y", IntToDec(t.y))
              else SubstPiece(p4, "inv_y", IntToDec(InvIndex(maxy, t.y)));
    var p6 := if hasZ then SubstPiece(p5, "z", IntToDec(t.z))
              else SubstPiece(p5, "inv_z", IntToDec(InvIndex(|t.levels|, t.z)));
    if t.dims.Some? then SubstPiece(p6, "dim", DimString(t.dims.value)) else p6
  }

  /** Each piece ends up as the value `Fill` gives it. */
  lemma PieceChain(p: Piece, t: TileRef, hasX: bool, hasY: bool, hasZ: bool)
    requires 0 <= t.z < |t.levels|
    ensures PieceText(ChainPiece(p, t, hasX, hasY, hasZ)) == PieceValue(p, t, hasX, hasY, hasZ)
  {
    match p
    case Lit(_) =>
    case Tok(n) =>
      if n == "tileset" || n == "grid" || n == "ext" || n == "dim" {
        ChainNamed(n, t, hasX, hasY, hasZ);
      } else if n == "x" || n == "inv_x" {
        ChainX(n, t, hasX, hasY, hasZ);
      } else if n == "y" || n == "inv_y" {
        ChainY(n, t, hasX, hasY, hasZ);
      } else if n == "z" || n == "inv_z" {
        ChainZ(n, t, hasX, hasY, hasZ);
      } else {
        ChainOther(n, t, hasX, hasY, hasZ);
      }
  }

  lemma ChainNamed(n: string, t: TileRef, hasX: bool, hasY: bool, hasZ: bool)
    requires 0 <= t.z < |t.levels|
    requires n == "tileset" || n == "grid" || n == "ext" || n == "dim"
    ensures PieceText(ChainPiece(Tok(n), t, hasX, hasY, hasZ)) == TokenValue(n, t, hasX, hasY, hasZ)
  {
  }

  lemma ChainX(n: string, t: TileRef, hasX: bool, hasY: bool, hasZ: bool)
    requires 0 <= t.z < |t.levels|
    requires n == "x" || n == "inv_x"
    ensures PieceText(ChainPiece(Tok(n), t, hasX, hasY, hasZ)) == TokenValue(n, t, hasX, hasY, hasZ)
  {
  }

  lemma ChainY(n: string, t: TileRef, hasX: bool, hasY: bool, hasZ: bool)
    requires 0 <= t.z < |t.levels|
    requires n == "y" || n == "inv_y"
    ensures PieceText(ChainPiece(Tok(n), t, hasX, hasY, hasZ)) == TokenValue(n, t, hasX, hasY, hasZ)
  {
  }

  lemma ChainZ(n: string, t: TileRef, hasX: bool, hasY: bool, hasZ: bool)
    requires 0 <= t.z < |t.levels|
    requires n == "z" || n == "inv_z"
    ensures PieceText(ChainPiece(Tok(n), t, hasX, hasY, hasZ)) == TokenValue(n, t, hasX, hasY, hasZ)
  {
  }

  /** A token the key builder does not know stays as it is. */
  lemma ChainOther(n: string, t: TileRef, hasX: bool, hasY: bool, hasZ: bool)
    requires 0 <= t.z < |t.levels|
    requires n != "tileset" && n != "grid" && n != "ext" && n != "dim"
    requires n != "x" && n != "inv_x" && n != "y" && n != "inv_y" && n != "z" && n != "inv_z"
    ensures ChainPiece(Tok(n), t, hasX, hasY, hasZ) == Tok(n)
    ensures TokenValue(n, t, hasX, hasY, hasZ) == Token(n)
  {
  }

  /** One `ReplaceAll` of the key builder on rendered pieces. */
  lemma ReplaceStep(q: seq<Piece>, name: string, v: string)
    requires WellFormed(q) && '{' !in name && '}' !in name && '{' !in v
    ensures ReplaceAll(Render(q), Token(name), v) == Render(Subst(q, name, v))
    ensures WellFormed(Subst(q, name, v))
  {
    ReplaceAllRender(q, name, v);
    SubstWellFormed(q, name, v);
  }

  /** One `ReplaceIndex` of the key builder on rendered pieces: the plain
      token when the pieces hold it, the inverted one otherwise. */
  lemma IndexStep(q: seq<Piece>, name: string, inv: string, v: int, max: int)
    requires WellFormed(q) && '{' !in name && '}' !in name && '{' !in inv && '}' !in inv
    ensures var r := if Tok(name) in q then Subst(q, name, IntToDec(v))
                     else Subst(q, inv, IntToDec(InvIndex(max, v)));
            ReplaceIndex(Render(q), Token(name), Token(inv), v, max) == Render(r) && WellFormed(r)
  {
    ContainsRender(q, name);
    NoBraceInDec(v);
    NoBraceInDec(InvIndex(max, v));
    if Tok(name) in q {
      ReplaceStep(q, name, IntToDec(v));
    } else {
      ReplaceStep(q, inv, IntToDec(InvIndex(max, v)));
    }
  }

  lemma TokenLiterals()
    ensures Token("tileset") == "{tileset}" && Token("grid") == "{grid}" && Token("ext") == "{ext}"
    ensures Token("x") == "{x}" && Token("inv_x") == "{inv_x}" && Token("y") == "{y}" && Token("inv_y") == "{inv_y}"
    ensures Token("z") == "{z}" && Token("inv_z") == "{inv_z}" && Token("dim") == "{dim}"
  {
  }

  /** The key builder's substitutions on rendered pieces are the piece-level
      ones. */
  lemma TemplateKeySubstituted(ps: seq<Piece>, t: TileRef)
    requires 0 <= t.z < |t.levels| && WellFormed(ps)
    requires '{' !in t.tileset && '{' !in t.grid && '{' !in Ext(t)
    ensures TemplateKey(Render(ps), t) ==
            Render(Substituted(ps, t, Tok("x") in ps, Tok("y") in ps, Tok("z") in ps))
  {
    var q3 := Subst(Subst(Subst(ps, "tileset", t.tileset), "grid", t.grid), "ext", Ext(t));
    HeadSteps(ps, t);
    Keeps3(ps, t, "x");
    Keeps3(ps, t, "y");
    Keeps3(ps, t, "z");
    IndexSteps(q3, t);
  }

  /** The substitutions of `{tileset}`, `{grid}` and `{ext}`. */
  lemma HeadSteps(ps: seq<Piece>, t: TileRef)
    requires WellFormed(ps) && '{' !in t.tileset && '{' !in t.grid && '{' !in Ext(t)
    ensures var q3 := Subst(Subst(Subst(ps, "tileset", t.tileset), "grid", t.grid), "ext", Ext(t));
            ReplaceAll(ReplaceAll(ReplaceAll(Render(ps), "{tileset}", t.tileset), "{grid}", t.grid), "{ext}", Ext(t)) ==
            Render(q3) && WellFormed(q3)
  {
    TokenLiterals();
    ReplaceStep(ps, "tileset", t.tileset);
    var q1 := Subst(ps, "tileset", t.tileset);
    ReplaceStep(q1, "grid", t.grid);
    var q2 := Subst(q1, "grid", t.grid);
    ReplaceStep(q2, "ext", Ext(t));
  }

  /** The index substitutions and `{dim}`, each plain token decided on the
      pieces they are applied to. */
  lemma IndexSteps(q3: seq<Piece>, t: TileRef)
    requires 0 <= t.z < |t.levels| && WellFormed(q3)
    ensures var maxx, maxy := t.levels[t.z].maxx, t.levels[t.z].maxy;
            var hasX, hasY, hasZ := Tok("x") in q3, Tok("y") in q3, Tok("z") in q3;
            var p4 := ReplaceIndex(Render(q3), "{x}", "{inv_x}", t.x, maxx);
            var p5 := ReplaceIndex(p4, "{y}", "{inv_y}", t.y, maxy);
            var p6 := ReplaceIndex(p5, "{z}", "{inv_z}", t.z, |t.levels|);
            var q4 := if hasX then Subst(q3, "x", IntToDec(t.x)) else Subst(q3, "inv_x", IntToDec(InvIndex(maxx, t.x)));
            var q5 := if hasY then Subst(q4, "y", IntToDec(t.y)) else Subst(q4, "inv_y", IntToDec(InvIndex(maxy, t.y)));
            var q6 := if hasZ then Subst(q5, "z", IntToDec(t.z)) else Subst(q5, "inv_z", IntToDec(InvIndex(|t.levels|, t.z)));
            (if t.dims.Some? then ReplaceAll(p6, "{dim}", DimString(t.dims.value)) else p6) ==
            Render(if t.dims.Some? then Subst(q6, "dim", DimString(t.dims.value)) else q6)
  {
    TokenLiterals();
    var maxx, maxy := t.levels[t.z].maxx, t.levels[t.z].maxy;
    var dx, dy, dz := IntToDec(t.x), IntToDec(t.y), IntToDec(t.z);
    var ix, iy, iz := IntToDec(InvIndex(maxx, t.x)), IntToDec(InvIndex(maxy, t.y)), IntToDec(InvIndex(|t.levels|, t.z));
    IndexStep(q3, "x", "inv_x", t.x, maxx);
    var q4 := if Tok("x") in q3 then Subst(q3, "x", dx) else Subst(q3, "inv_x", ix);
    SubstKeeps(q3, if Tok("x") in q3 then "x" else "inv_x", if Tok("x") in q3 then dx else ix, "y");
    SubstKeeps(q3, if Tok("x") in q3 then "x" else "inv_x", if Tok("x") in q3 then dx else ix, "z");
    IndexStep(q4, "y", "inv_y", t.y, maxy);
    var q5 := if Tok("y") in q4 then Subst(q4, "y", dy) else Subst(q4, "inv_y", iy);
    SubstKeeps(q4, if Tok("y") in q4 then "y" else "inv_y", if Tok("y") in q4 then dy else iy, "z");
    IndexStep(q5, "z", "inv_z", t.z, |t.levels|);
    var q6 := if Tok("z") in q5 then Subst(q5, "z", dz) else Subst(q5, "inv_z", iz);
    if t.dims.Some? {
      ReplaceAllRender(q6, "dim", DimString(t.dims.value));
    }
  }

  /** The first three substitutions keep the index tokens. */
  lemma Keeps3(ps: seq<Piece>, t: TileRef, n: string)
    requires n == "x" || n == "y" || n == "z"
    ensures Tok(n) in Subst(Subst(Subst(ps, "tileset", t.tileset), "grid", t.grid), "ext", Ext(t)) <==> Tok(n) in ps
  {
    SubstKeeps(ps, "tileset", t.tileset, n);
    SubstKeeps(Subst(ps, "tileset", t.tileset), "grid", t.grid, n);
    SubstKeeps(Subst(Subst(ps, "tileset", t.tileset), "grid", t.grid), "ext", Ext(t), n);
  }

  /** On a well-formed template whose tileset, grid and extension bring no
      '{', the key is the template with every token replaced by its value. */
  lemma TemplateKeyFill(ps: seq<Piece>, t: TileRef)
    requires 0 <= t.z < |t.levels| && WellFormed(ps)
    requires '{' !in t.tileset && '{' !in t.grid && '{' !in Ext(t)
    ensures TemplateKey(Render(ps), t) == Fill(ps, t, Tok("x") in ps, Tok("y") in ps, Tok("z") in ps)
  {
    TemplateKeySubstituted(ps, t);
    SubstitutedFill(ps, t, Tok("x") in ps, Tok("y") in ps, Tok("z") in ps);
  }

  /** "{tileset}/{grid}/{z}/{x}/{inv_y}.{ext}" as pieces. */
  function ExamplePieces(): seq<Piece>
  {
    [Tok("tileset"), Lit("/"), Tok("grid"), Lit("/"), Tok("z"), Lit("/"), Tok("x"),
     Lit("/"), Tok("inv_y"), Lit("."), Tok("ext")]
  }

  lemma RenderAt(ps: seq<Piece>, k: int)
    requires 0 <= k < |ps|
    ensures Render(ps[k..]) == PieceText(ps[k]) + Render(ps[k + 1..])
  {
    assert ps[k..][1..] == ps[k + 1..];
  }

  lemma FillAt(ps: seq<Piece>, k: int, t: TileRef, hasX: bool, hasY: bool, hasZ: bool)
    requires 0 <= k < |ps| && 0 <= t.z < |t.levels|
    ensures Fill(ps[k..], t, hasX, hasY, hasZ) == PieceValue(ps[k], t, hasX, hasY, hasZ) + Fill(ps[k + 1..], t, hasX, hasY, hasZ)
  {
    assert ps[k..][1..] == ps[k + 1..];
  }

  lemma ExampleRender()
    ensures Render(ExamplePieces()) ==
            "{tileset}" + "/" + "{grid}" + "/" + "{z}" + "/" + "{x}" + "/" + "{inv_y}" + "." + "{ext}"
  {
    ExampleRenderFlat();
    TokenLiterals();
  }

  lemma ExampleRenderFlat()
    ensures Render(ExamplePieces()) ==
            Token("tileset") + "/" + Token("grid") + "/" + Token("z") + "/" + Token("x") + "/" +
            Token("inv_y") + "." + Token("ext")
  {
    ExampleRenderNested();
    Reassociate(Token("tileset"), "/", Token("grid"), "/", Token("z"), "/", Token("x"), "/", Token("inv_y"), ".", Token("ext"));
  }

  /** Eleven strings joined from the left are joined from the right. */
  lemma Reassociate(a0: string, a1: string, a2: string, a3: string, a4: string, a5: string,
                    a6: string, a7: string, a8: string, a9: string, a10: string)
    ensures a0 + a1 + a2 + a3 + a4 + a5 + a6 + a7 + a8 + a9 + a10 ==
            a0 + (a1 + (a2 + (a3 + (a4 + (a5 + (a6 + (a7 + (a8 + (a9 + a10)))))))))
  {
    var l1 := a0 + a1;
    var l2 := l1 + a2;
    var l3 := l2 + a3;
    var l4 := l3 + a4;
    var l5 := l4 + a5;
    var l6 := l5 + a6;
    var l7 := l6 + a7;
    var l8 := l7 + a8;
    var l9 := l8 + a9;
    var r9 := a9 + a10;
    var r8 := a8 + r9;
    var r7 := a7 + r8;
    var r6 := a6 + r7;
    var r5 := a5 + r6;
    var r4 := a4 + r5;
    var r3 := a3 + r4;
    var r2 := a2 + r3;
    var r1 := a1 + r2;
    Associate(l8, a9, a10);
    Associate(l7, a8, r9);
    Associate(l6, a7, r8);
    Associate(l5, a6, r7);
    Associate(l4, a5, r6);
    Associate(l3, a4, r5);
    Associate(l2, a3, r4);
    Associate(l1, a2, r3);
    Associate(a0, a1, r2);
  }


  lemma ExampleRenderNested()
    ensures Render(ExamplePieces()) ==
            Token("tileset") + ("/" + (Token("grid") + ("/" + (Token("z") + ("/" + (Token("x") + ("/" +
            (Token("inv_y") + ("." + Token("ext"))))))))))
  {
    var ps := ExamplePieces();
    RenderEleven(ps);
    assert PieceText(ps[0]) == Token("tileset") && PieceText(ps[2]) == Token("grid");
    assert PieceText(ps[4]) == Token("z") && PieceText(ps[6]) == Token("x");
    assert PieceText(ps[8]) == Token("inv_y") && PieceText(ps[10]) == Token("ext");
    assert PieceText(ps[1]) == "/" && PieceText(ps[3]) == "/" && PieceText(ps[5]) == "/";
    assert PieceText(ps[7]) == "/" && PieceText(ps[9]) == ".";
  }

  /** The text of eleven pieces, one after the other. */
  lemma RenderEleven(ps: seq<Piece>)
    requires |ps| == 11
    ensures Render(ps) ==
            PieceText(ps[0]) + (PieceText(ps[1]) + (PieceText(ps[2]) + (PieceText(ps[3]) + (PieceText(ps[4]) +
            (PieceText(ps[5]) + (PieceText(ps[6]) + (PieceText(ps[7]) + (PieceText(ps[8]) + (PieceText(ps[9]) +
            PieceText(ps[10]))))))))))
  {
    assert ps[11..] == [];
    RenderAt(ps, 10);
    assert PieceText(ps[10]) + "" == PieceText(ps[10]);
    RenderAt(ps, 9);
    RenderAt(ps, 8);
    RenderAt(ps, 7);
    RenderAt(ps, 6);
    RenderAt(ps, 5);
    RenderAt(ps, 4);
    RenderAt(ps, 3);
    RenderAt(ps, 2);
    RenderAt(ps, 1);
    RenderAt(ps, 0);
    assert ps[0..] == ps;
  }

  lemma ExampleShape()
    ensures var ps := ExamplePieces();
            WellFormed(ps) && Tok("x") in ps && Tok("y") !in ps && Tok("z") in ps
  {
    var ps := ExamplePieces();
    assert ps[6] == Tok("x") && ps[4] == Tok("z");
  }

  lemma ExampleFill(t: TileRef)
    requires 0 <= t.z < |t.levels|
    ensures Fill(ExamplePieces(), t, true, false, true) ==
            t.tileset + "/" + t.grid + "/" + IntToDec(t.z) + "/" + IntToDec(t.x) + "/" +
            IntToDec(t.levels[t.z].maxy - t.y - 1) + "." + Ext(t)
  {
    ExampleFillFlat(t);
    ExampleValues(t);
  }

  lemma ExampleValues(t: TileRef)
    requires 0 <= t.z < |t.levels|
    ensures var ps := ExamplePieces();
            PieceValue(ps[0], t, true, false, true) == t.tileset &&
            PieceValue(ps[2], t, true, false, true) == t.grid &&
            PieceValue(ps[4], t, true, false, true) == IntToDec(t.z) &&
            PieceValue(ps[6], t, true, false, true) == IntToDec(t.x) &&
            PieceValue(ps[8], t, true, false, true) == IntToDec(t.levels[t.z].maxy - t.y - 1) &&
            PieceValue(ps[10], t, true, false, true) == Ext(t)
  {
  }

  lemma ExampleFillFlat(t: TileRef)
    requires 0 <= t.z < |t.levels|
    ensures var ps := ExamplePieces();
            Fill(ps, t, true, false, true) ==
            PieceValue(ps[0], t, true, false, true) + "/" + PieceValue(ps[2], t, true, false, true) + "/" +
            PieceValue(ps[4], t, true, false, true) + "/" + PieceValue(ps[6], t, true, false, true) + "/" +
            PieceValue(ps[8], t, true, false, true) + "." + PieceValue(ps[10], t, true, false, true)
  {
    var ps := ExamplePieces();
    FillEleven(ps, t, true, false, true);
    assert PieceValue(ps[1], t, true, false, true) == "/" && PieceValue(ps[3], t, true, false, true) == "/";
    assert PieceValue(ps[5], t, true, false, true) == "/" && PieceValue(ps[7], t, true, false, true) == "/";
    assert PieceValue(ps[9], t, true, false, true) == ".";
    Reassociate(PieceValue(ps[0], t, true, false, true), "/", PieceValue(ps[2], t, true, false, true), "/",
                PieceValue(ps[4], t, true, false, true), "/", PieceValue(ps[6], t, true, false, true), "/",
                PieceValue(ps[8], t, true, false, true), ".", PieceValue(ps[10], t, true, false, true));
  }

  /** The key of eleven pieces, one value after the other. */
  lemma FillEleven(ps: seq<Piece>, t: TileRef, hasX: bool, hasY: bool, hasZ: bool)
    requires |ps| == 11 && 0 <= t.z < |t.levels|
    ensures Fill(ps, t, hasX, hasY, hasZ) ==
            PieceValue(ps[0], t, hasX, hasY, hasZ) + (PieceValue(ps[1], t, hasX, hasY, hasZ) +
            (PieceValue(ps[2], t, hasX, hasY, hasZ) + (PieceValue(ps[3], t, hasX, hasY, hasZ) +
            (PieceValue(ps[4], t, hasX, hasY, hasZ) + (PieceValue(ps[5], t, hasX, hasY, hasZ) +
            (PieceValue(ps[6], t, hasX, hasY, hasZ) + (PieceValue(ps[7], t, hasX, hasY, hasZ) +
            (PieceValue(ps[8], t, hasX, hasY, hasZ) + (PieceValue(ps[9], t, hasX, hasY, hasZ) +
            PieceValue(ps[10], t, hasX, hasY, hasZ))))))))))
  {
    assert ps[11..] == [];
    FillAt(ps, 10, t, hasX, hasY, hasZ);
    assert PieceValue(ps[10], t, hasX, hasY, hasZ) + "" == PieceValue(ps[10], t, hasX, hasY, hasZ);
    FillAt(ps, 9, t, hasX, hasY, hasZ);
    FillAt(ps, 8, t, hasX, hasY, hasZ);
    FillAt(ps, 7, t, hasX, hasY, hasZ);
    FillAt(ps, 6, t, hasX, hasY, hasZ);
    FillAt(ps, 5, t, hasX, hasY, hasZ);
    FillAt(ps, 4, t, hasX, hasY, hasZ);
    FillAt(ps, 3, t, hasX, hasY, hasZ);
    FillAt(ps, 2, t, hasX, hasY, hasZ);
    FillAt(ps, 1, t, hasX, hasY, hasZ);
    FillAt(ps, 0, t, hasX, hasY, hasZ);
    assert ps[0..] == ps;
  }

  /** The template "{tileset}/{grid}/{z}/{x}/{inv_y}.{ext}" gives the key
      tileset/grid/z/x/(maxy - y - 1).ext. */
  lemma TemplateKeyExample(template: string, t: TileRef)
    requires template == "{tileset}" + "/" + "{grid}" + "/" + "{z}" + "/" + "{x}" + "/" + "{inv_y}" + "." + "{ext}"
    requires 0 <= t.z < |t.levels|
    requires '{' !in t.tileset && '{' !in t.grid && '{' !in Ext(t)
    ensures TemplateKey(template, t) ==
            t.tileset + "/" + t.grid + "/" + IntToDec(t.z) + "/" + IntToDec(t.x) + "/" +
            IntToDec(t.levels[t.z].maxy - t.y - 1) + "." + Ext(t)
  {
    ExampleRender();
    ExampleShape();
    TemplateKeyFill(ExamplePieces(), t);
    ExampleFill(t);
  }
}
