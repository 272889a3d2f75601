/** Text templates: a sequence of literal fragments and slots, filled
    positionally with argument strings. Both the fundamental-data block and
    the analysis prompt are instances; `Unfill` reads the arguments back out
    of a filled text. */
module Templates {
  import opened Wrappers

  /** A template piece: literal text, or a slot taking the next argument. */
  datatype Piece = Text(s: string) | Slot

  /** Number of slots, i.e. the number of arguments a template takes. */
  function SlotCount(t: seq<Piece>): nat
  {
    if t == [] then 0
    else (if t[0].Slot? then 1 else 0) + SlotCount(t[1..])
  }

  /** Total length of the literal fragments. */
  function TextLength(t: seq<Piece>): nat
  {
    if t == [] then 0
    else (if t[0].Text? then |t[0].s| else 0) + TextLength(t[1..])
  }

  /** Total length of a list of strings. */
  function TotalLength(args: seq<string>): nat
  {
    if args == [] then 0 else |args[0]| + TotalLength(args[1..])
  }

  /** The template with every slot replaced, in order, by its argument,
      inserted verbatim. */
  function Fill(t: seq<Piece>, args: seq<string>): (r: string)
    requires |args| == SlotCount(t)
    ensures |r| == TextLength(t) + TotalLength(args)
    ensures |t| > 0 && t[0].Text? ==> t[0].s <= r
    ensures |t| > 0 && t[0].Slot? ==> args[0] <= r
  {
    if t == [] then ""
    else match t[0]
      case Text(s) => s + Fill(t[1..], args)
      case Slot => args[0] + Fill(t[1..], args[1..])
  }

  /** The template alternating the given literals with slots, starting and
      ending with a literal. */
  function Interleave(l: seq<string>): (t: seq<Piece>)
    requires |l| > 0
    ensures SlotCount(t) == |l| - 1
  {
    if |l| == 1 then [Text(l[0])]
    else
      var t := [Text(l[0]), Slot] + Interleave(l[1..]);
      assert t[1..][1..] == Interleave(l[1..]);
      t
  }

  /** The literals with the arguments inserted between consecutive ones. */
  function Weave(l: seq<string>, args: seq<string>): string
    requires |l| == |args| + 1
  {
    if args == [] then l[0] else l[0] + args[0] + Weave(l[1..], args[1..])
  }

  /** Filling an interleaved template weaves its arguments between the literals. */
  lemma {:induction false} FillInterleave(l: seq<string>, args: seq<string>)
    requires |l| == |args| + 1
    ensures Fill(Interleave(l), args) == Weave(l, args)
  {
    if args == [] {
      assert Fill([Text(l[0])], args) == l[0] + Fill([], args);
    } else {
      var t := Interleave(l);
      assert t[1..][1..] == Interleave(l[1..]);
      FillInterleave(l[1..], args[1..]);
    }
  }

  /** Weaving two arguments, spelled out. */
  lemma WeaveTwo(l: seq<string>, args: seq<string>)
    requires |l| == 3 && |args| == 2
    ensures Weave(l, args) == l[0] + (args[0] + (l[1] + (args[1] + l[2])))
  {
    assert Weave(l[2..], args[2..]) == l[2];
    assert Weave(l[1..], args[1..]) == l[1] + (args[1] + Weave(l[2..], args[2..]));
  }

  /** Weaving six arguments, spelled out. */
  lemma WeaveSix(l: seq<string>, args: seq<string>)
    requires |l| == 7 && |args| == 6
    ensures Weave(l, args) ==
      l[0] + (args[0] + (l[1] + (args[1] + (l[2] + (args[2] + (l[3] + (args[3]
      + (l[4] + (args[4] + (l[5] + (args[5] + l[6])))))))))))
  {
    assert Weave(l[6..], args[6..]) == l[6];
    assert Weave(l[5..], args[5..]) == l[5] + (args[5] + Weave(l[6..], args[6..]));
    assert Weave(l[4..], args[4..]) == l[4] + (args[4] + Weave(l[5..], args[5..]));
    assert Weave(l[3..], args[3..]) == l[3] + (args[3] + Weave(l[4..], args[4..]));
    assert Weave(l[2..], args[2..]) == l[2] + (args[2] + Weave(l[3..], args[3..]));
    assert Weave(l[1..], args[1..]) == l[1] + (args[1] + Weave(l[2..], args[2..]));
  }

  /** Index of the first occurrence of `c` in `s`, or `|s|` when there is none. */
  function Find(s: string, c: char): (k: nat)
    ensures k <= |s|
    ensures forall i :: 0 <= i < k ==> s[i] != c
    ensures k < |s| ==> s[k] == c
  {
    if s == [] then 0
    else if s[0] == c then 0
    else 1 + Find(s[1..], c)
  }

  /** `args` can be read back out of `Fill(t, args)`: every slot except a
      final one is followed by a non-empty literal whose first character
      does not occur in the slot's argument. */
  predicate Fits(t: seq<Piece>, args: seq<string>)
  {
    if t == [] then args == []
    else match t[0]
      case Text(_) => Fits(t[1..], args)
      case Slot =>
        && |args| > 0
        && if |t| == 1 then |args| == 1
           else && t[1].Text? && |t[1].s| > 0
                && t[1].s[0] !in args[0]
                && Fits(t[1..], args[1..])
  }

  /** Matches `text` against the template: literals must match exactly; a slot
      takes everything up to the first character of the literal after it (a
      final slot takes the rest). None when the text does not match. */
  function Unfill(t: seq<Piece>, text: string): Option<seq<string>>
  {
    if t == [] then (if text == "" then Some([]) else None)
    else match t[0]
      case Text(s) =>
        if s <= text then Unfill(t[1..], text[|s|..]) else None
      case Slot =>
        if |t| == 1 then Some([text])
        else if t[1].Text? && |t[1].s| > 0 then
          var k := Find(text, t[1].s[0]);
          match Unfill(t[1..], text[k..])
          case Some(rest) => Some([text[..k]] + rest)
          case None => None
        else None
  }

  lemma {:induction false} FindAfterFree(a: string, b: string, c: char)
    requires c !in a
    requires |b| > 0 && b[0] == c
    ensures Find(a + b, c) == |a|
  {
    if a == [] {
      assert a + b == b;
    } else {
      assert (a + b)[1..] == a[1..] + b;
      FindAfterFree(a[1..], b, c);
    }
  }

  /** Each argument is free of the first character of the (non-empty)
      literal that follows it in `l`. */
  predicate Separated(l: seq<string>, args: seq<string>)
    requires |l| == |args| + 1
  {
    args == [] || (|l[1]| > 0 && l[1][0] !in args[0] && Separated(l[1..], args[1..]))
  }

  /** An interleaved template fits arguments separated by its literals. */
  lemma {:induction false} FitsInterleave(l: seq<string>, args: seq<string>)
    requires |l| == |args| + 1
    requires Separated(l, args)
    ensures Fits(Interleave(l), args)
  {
    var t := Interleave(l);
    if args == [] {
      assert t[1..] == [];
    } else {
      assert t[1..][1..] == Interleave(l[1..]);
      FitsInterleave(l[1..], args[1..]);
      assert t[1..][1] == Text(l[1]);
    }
  }

  /** Reading back a filled template yields its arguments. */
  lemma {:induction false} UnfillFill(t: seq<Piece>, args: seq<string>)
    requires |args| == SlotCount(t)
    requires Fits(t, args)
    ensures Unfill(t, Fill(t, args)) == Some(args)
  {
    if t == [] {
    } else {
      match t[0]
      case Text(s) =>
        var rest := Fill(t[1..], args);
        assert Fill(t, args) == s + rest;
        assert (s + rest)[|s|..] == rest;
        UnfillFill(t[1..], args);
      case Slot =>
        if |t| == 1 {
          assert t[1..] == [];
          assert Fill(t[1..], args[1..]) == "";
          assert Fill(t, args) == args[0];
          assert args == [args[0]];
        } else {
          var rest := Fill(t[1..], args[1..]);
          var text := args[0] + rest;
          assert Fill(t, args) == text;
          assert rest[0] == t[1].s[0];
          FindAfterFree(args[0], rest, t[1].s[0]);
          assert text[..|args[0]|] == args[0];
          assert text[|args[0]|..] == rest;
          UnfillFill(t[1..], args[1..]);
          assert [args[0]] + args[1..] == args;
        }
    }
  }

  /** Whatever `Unfill` reads out of a text fits the template and fills it
      back to exactly that text. */
  lemma {:induction false} FillUnfill(t: seq<Piece>, text: string, args: seq<string>)
    requires Unfill(t, text) == Some(args)
    ensures |args| == SlotCount(t)
    ensures Fits(t, args)
    ensures Fill(t, args) == text
  {
    if t == [] {
    } else {
      match t[0]
      case Text(s) =>
        FillUnfill(t[1..], text[|s|..], args);
        assert text == s + text[|s|..];
      case Slot =>
        if |t| == 1 {
          assert t[1..] == [];
          assert args == [text];
          assert Fill(t, args) == text + "";
        } else {
          var k := Find(text, t[1].s[0]);
          var rest :| Unfill(t[1..], text[k..]) == Some(rest);
          assert args == [text[..k]] + rest;
          FillUnfill(t[1..], text[k..], rest);
          assert args[1..] == rest;
          assert text == text[..k] + text[k..];
        }
    }
  }

  /** For arguments that fit, a text is the filled template exactly when
      `Unfill` reads those arguments out of it. */
  lemma {:induction false} UnfillIff(t: seq<Piece>, args: seq<string>, text: string)
    requires |args| == SlotCount(t)
    requires Fits(t, args)
    ensures Unfill(t, text) == Some(args) <==> text == Fill(t, args)
  {
    if Unfill(t, text) == Some(args) {
      FillUnfill(t, text, args);
    }
    if text == Fill(t, args) {
      UnfillFill(t, args);
    }
  }

  /** Filling is injective on arguments that fit. */
  lemma {:induction false} FillInjective(t: seq<Piece>, a: seq<string>, b: seq<string>)
    requires |a| == SlotCount(t) && |b| == SlotCount(t)
    requires Fits(t, a) && Fits(t, b)
    requires Fill(t, a) == Fill(t, b)
    ensures a == b
  {
    UnfillFill(t, a);
    UnfillFill(t, b);
  }
}
