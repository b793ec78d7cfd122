/** The two pieces of Sphinx and the Python standard library the directives
    write their HTML with: the HTML translator's `body` buffer, and
    `string.Template` substitution of `$name` placeholders. */
module Html {
  import opened Wrappers
  import opened Text

  /** Sphinx's HTML translator, reduced to its output buffer. */
  class Translator {
    var body: seq<string>

    constructor ()
      ensures body == []
    {
      body := [];
    }

    /** `self.body.append(s)`. */
    method Append(s: string)
      modifies this
      ensures body == old(body) + [s]
    {
      body := body + [s];
    }
  }

  /** The placeholder names the directives' templates use. */
  datatype Name = FigureName | DivId | FigureOptionsJson | Align | FigBasename

  /** A template, as the text between and the placeholders in order. Adjacent
      literal pieces render as one run of text. */
  datatype Piece = Lit(text: string) | Hole(name: Name)

  type Template = seq<Piece>

  /** Every placeholder of the template has a value. */
  predicate Covers(t: Template, m: map<Name, string>)
  {
    forall k :: 0 <= k < |t| ==> t[k].Hole? ==> t[k].name in m
  }

  /** The text with every placeholder replaced by its value. */
  function Render(t: Template, m: map<Name, string>): string
    requires Covers(t, m)
    decreases |t|
  {
    if t == [] then ""
    else
      assert Covers(t[1..], m) by {
        forall k | 0 <= k < |t[1..]| ensures t[1..][k].Hole? ==> t[1..][k].name in m {
          assert t[1..][k] == t[k + 1];
        }
      }
      (match t[0] case Lit(s) => s case Hole(n) => m[n]) + Render(t[1..], m)
  }

  /** The first placeholder without a value. */
  function FirstMissing(t: Template, m: map<Name, string>): (n: Name)
    requires !Covers(t, m)
    ensures n !in m
    decreases |t|
  {
    if t[0].Hole? && t[0].name !in m then t[0].name
    else
      assert !Covers(t[1..], m) by {
        var k :| 0 <= k < |t| && t[k].Hole? && t[k].name !in m;
        assert k > 0 && t[1..][k - 1] == t[k];
      }
      FirstMissing(t[1..], m)
  }

  /** `Template.substitute`: a placeholder without a value raises `KeyError`. */
  function Substitute(t: Template, m: map<Name, string>): Result<string, Name>
  {
    if Covers(t, m) then Ok(Render(t, m)) else Err(FirstMissing(t, m))
  }

  lemma CoversAppend(t1: Template, t2: Template, m: map<Name, string>)
    ensures Covers(t1 + t2, m) <==> Covers(t1, m) && Covers(t2, m)
  {
    if Covers(t1 + t2, m) {
      forall k | 0 <= k < |t2| ensures t2[k].Hole? ==> t2[k].name in m {
        assert t2[k] == (t1 + t2)[|t1| + k];
      }
      forall k | 0 <= k < |t1| ensures t1[k].Hole? ==> t1[k].name in m {
        assert t1[k] == (t1 + t2)[k];
      }
    }
  }

  lemma ConcatAssoc(a: string, b: string, c: string)
    ensures (a + b) + c == a + (b + c)
  {
  }

  /** Rendering a concatenation renders the two parts one after the other. */
  lemma {:induction false} RenderAppend(t1: Template, t2: Template, m: map<Name, string>)
    requires Covers(t1, m) && Covers(t2, m)
    ensures Covers(t1 + t2, m)
    ensures Render(t1 + t2, m) == Render(t1, m) + Render(t2, m)
    decreases |t1|
  {
    CoversAppend(t1, t2, m);
    if t1 != [] {
      RenderCons(t1, m);
      RenderAppend(t1[1..], t2, m);
      RenderAppendStep(t1, t2, m);
    } else {
      assert t1 + t2 == t2;
    }
  }

  /** The inductive step of RenderAppend: the first piece comes first on
      both sides. */
  lemma RenderAppendStep(t1: Template, t2: Template, m: map<Name, string>)
    requires t1 != [] && Covers(t1, m) && Covers(t1 + t2, m)
    requires Covers(t1[1..], m) && Covers(t2, m) && Covers(t1[1..] + t2, m)
    requires Render(t1[1..] + t2, m) == Render(t1[1..], m) + Render(t2, m)
    ensures Render(t1 + t2, m) == Render(t1, m) + Render(t2, m)
  {
    var t := t1 + t2;
    RenderCons(t1, m);
    RenderCons(t, m);
    assert t[1..] == t1[1..] + t2 && t[0] == t1[0];
    ConcatAssoc(PieceText(t1[0], m), Render(t1[1..], m), Render(t2, m));
  }

  /** The rendering of any run of consecutive pieces occurs in the rendering
      of the whole template. */
  lemma RenderSlice(t: Template, m: map<Name, string>, i: nat, j: nat)
    requires Covers(t, m) && i <= j <= |t|
    ensures Covers(t[i..j], m)
    ensures Contains(Render(t, m), Render(t[i..j], m))
  {
    assert t == t[..i] + t[i..j] + t[j..];
    CoversAppend(t[..i] + t[i..j], t[j..], m);
    CoversAppend(t[..i], t[i..j], m);
    RenderAppend(t[..i], t[i..j], m);
    RenderAppend(t[..i] + t[i..j], t[j..], m);
    ContainsMiddle(Render(t[..i], m), Render(t[i..j], m), Render(t[j..], m));
  }

  /** The text one piece renders to. */
  function PieceText(p: Piece, m: map<Name, string>): string
    requires p.Hole? ==> p.name in m
  {
    match p case Lit(s) => s case Hole(n) => m[n]
  }

  lemma RenderCons(t: Template, m: map<Name, string>)
    requires Covers(t, m) && t != []
    ensures Covers(t[1..], m)
    ensures Render(t, m) == PieceText(t[0], m) + Render(t[1..], m)
  {
  }

  /** One piece's text occurs in the rendering. */
  lemma RenderRun1(t: Template, m: map<Name, string>, i: nat)
    requires Covers(t, m) && i < |t|
    ensures Contains(Render(t, m), PieceText(t[i], m))
  {
    RenderSlice(t, m, i, i + 1);
    var r := t[i..i + 1];
    RenderCons(r, m);
    assert r[1..] == [];
    assert Render(r, m) == PieceText(t[i], m) + "";
    assert PieceText(t[i], m) + "" == PieceText(t[i], m);
  }

  /** The first two pieces' texts, then the rest. */
  lemma RenderTwo(r: Template, m: map<Name, string>)
    requires Covers(r, m) && |r| >= 2
    ensures Covers(r[2..], m)
    ensures Render(r, m) == PieceText(r[0], m) + PieceText(r[1], m) + Render(r[2..], m)
  {
    RenderCons(r, m);
    RenderCons(r[1..], m);
    assert r[1..][1..] == r[2..];
    assert r[1..][0] == r[1];
  }

  /** A three-piece template renders to its pieces' texts in order. */
  lemma RenderThree(r: Template, m: map<Name, string>)
    requires Covers(r, m) && |r| == 3
    ensures Render(r, m) == PieceText(r[0], m) + PieceText(r[1], m) + PieceText(r[2], m)
  {
    RenderTwo(r, m);
    RenderCons(r[2..], m);
    assert r[2..][1..] == [];
    assert r[2..][0] == r[2];
  }

  /** A five-piece template renders to its pieces' texts in order. */
  lemma RenderFive(r: Template, m: map<Name, string>)
    requires Covers(r, m) && |r| == 5
    ensures Render(r, m) == PieceText(r[0], m) + PieceText(r[1], m) + PieceText(r[2], m) + PieceText(r[3], m) + PieceText(r[4], m)
  {
    RenderTwo(r, m);
    var q := r[2..];
    RenderThree(q, m);
    assert q[0] == r[2] && q[1] == r[3] && q[2] == r[4];
    var a, b := PieceText(r[0], m), PieceText(r[1], m);
    var c, d, e := PieceText(r[2], m), PieceText(r[3], m), PieceText(r[4], m);
    assert a + b + (c + d + e) == a + b + c + d + e;
  }

  /** Three consecutive pieces render next to each other. */
  lemma RenderRun3(t: Template, m: map<Name, string>, i: nat)
    requires Covers(t, m) && i + 3 <= |t|
    ensures Contains(Render(t, m), PieceText(t[i], m) + PieceText(t[i + 1], m) + PieceText(t[i + 2], m))
  {
    RenderSlice(t, m, i, i + 3);
    var r := t[i..i + 3];
    RenderThree(r, m);
    assert r[0] == t[i] && r[1] == t[i + 1] && r[2] == t[i + 2];
  }

  /** Five consecutive pieces render next to each other. */
  lemma RenderRun5(t: Template, m: map<Name, string>, i: nat)
    requires Covers(t, m) && i + 5 <= |t|
    ensures Contains(Render(t, m),
      PieceText(t[i], m) + PieceText(t[i + 1], m) + PieceText(t[i + 2], m) + PieceText(t[i + 3], m) + PieceText(t[i + 4], m))
  {
    RenderSlice(t, m, i, i + 5);
    var r := t[i..i + 5];
    RenderFive(r, m);
    assert r[0] == t[i] && r[1] == t[i + 1] && r[2] == t[i + 2] && r[3] == t[i + 3] && r[4] == t[i + 4];
  }
}
