/** Moving-average types of MACDEXT: the nine-name table whose positions are
    the service's numeric codes, and the resolution the client applies to a
    `fastmatype`, `slowmatype` or `signalmatype` argument. */
module MovingAverage {
  import opened Wrappers
  import opened Errors
  import opened Decimal
  import opened Sequences

  /** Position i holds the name of moving-average code i; the order is fixed
      by the service. */
  const MathMap: seq<string> := ["SMA", "EMA", "WMA", "DEMA", "TEMA", "TRIMA", "T3", "KAMA", "MAMA"]

  /** A moving-average argument as callers pass it: an int, or a string that
      holds either an integer or a name from MathMap. */
  datatype MaArg = MaInt(n: int) | MaStr(s: string)

  /** Python truthiness of the argument: None, 0 and "" are false. */
  predicate Truthy(arg: Option<MaArg>) {
    match arg
    case None => false
    case Some(MaInt(n)) => n != 0
    case Some(MaStr(s)) => s != ""
  }

  /** `int(arg)`, and when that raises ValueError, `MathMap.index(arg)`. */
  function ResolveMaType(arg: MaArg): (r: Result<int, Error>)
    ensures arg.MaInt? ==> r == Success(arg.n)
    ensures arg.MaStr? && IsIntLiteral(arg.s) ==> r == Success(ParseInt(arg.s))
    ensures arg.MaStr? && !IsIntLiteral(arg.s) ==>
      if arg.s in MathMap then r.Success? && 0 <= r.value < |MathMap| && MathMap[r.value] == arg.s
      else r == Failure(NotInMathMap(arg.s))
  {
    match arg
    case MaInt(n) => Success(n)
    case MaStr(s) =>
      if IsIntLiteral(s) then Success(ParseInt(s))
      else if s in MathMap then Success(IndexOf(MathMap, s))
      else Failure(NotInMathMap(s))
  }

  /** Every name in the table resolves to its own position: SMA is 0, EMA 1,
      WMA 2, DEMA 3, TEMA 4, TRIMA 5, T3 6, KAMA 7, MAMA 8. */
  lemma NameResolvesToCode(i: nat)
    requires i < |MathMap|
    ensures ResolveMaType(MaStr(MathMap[i])) == Success(i)
  {
    NamesAreNotIntegers();
    MathMapDistinct();
  }

  /** No table name reads as an integer: each starts with a capital letter. */
  lemma NamesAreNotIntegers()
    ensures forall i :: 0 <= i < |MathMap| ==> !IsIntLiteral(MathMap[i])
  {
    forall i | 0 <= i < |MathMap|
      ensures !IsIntLiteral(MathMap[i])
    {
      assert 'A' <= MathMap[i][0] <= 'Z';
    }
  }

  /** The table lists each name once, so a name's first position is its code. */
  lemma MathMapDistinct()
    ensures forall j, k :: 0 <= j < k < |MathMap| ==> MathMap[j] != MathMap[k]
  {
  }

  /** A string holding an integer is passed through as that integer, with no
      check that it is a valid code: "4" gives 4, "-1" gives -1. */
  lemma IntegerTextPassesThrough(n: int)
    ensures ResolveMaType(MaStr(IntToString(n))) == Success(n)
  {
    ParseIntToString(n);
  }

  /** Resolution fails exactly for a string that is neither an integer
      literal nor a name in the table, and the error carries that string. */
  lemma ResolveFailsExactly(arg: MaArg)
    ensures ResolveMaType(arg).Failure? <==> arg.MaStr? && !IsIntLiteral(arg.s) && arg.s !in MathMap
    ensures ResolveMaType(arg).Failure? ==> ResolveMaType(arg).error == NotInMathMap(arg.s)
  {
  }

  /** A name is resolved to a code in 0..8 only; other codes can arise only
      from integer arguments. */
  lemma NamedCodesInRange(s: string)
    requires !IsIntLiteral(s) && ResolveMaType(MaStr(s)).Success?
    ensures 0 <= ResolveMaType(MaStr(s)).value <= 8
    ensures MathMap[ResolveMaType(MaStr(s)).value] == s
  {
  }

  /** The names "EMA" and "KAMA" give 1 and 7. */
  lemma NameExamples()
    ensures ResolveMaType(MaStr("EMA")) == Success(1)
    ensures ResolveMaType(MaStr("KAMA")) == Success(7)
  {
    NameResolvesToCode(1);
    NameResolvesToCode(7);
  }

  /** "4" gives 4, "-1" gives -1 and "007" gives 7, which is emitted as "7". */
  lemma IntegerExamples()
    ensures ResolveMaType(MaStr("4")) == Success(4)
    ensures ResolveMaType(MaStr("-1")) == Success(-1)
    ensures ResolveMaType(MaStr("007")) == Success(7) && IntToString(7) == "7"
  {
    IntegerTextPassesThrough(4);
    IntegerTextPassesThrough(-1);
    assert IsIntLiteral("007");
    assert DigitsValue("007") == 7 by {
      assert "007"[..2] == "00";
      assert "00"[..1] == "0";
      assert "0"[..0] == "";
    }
  }

  /** Matching is exact and case-sensitive: "ema" and "bogus" fail. */
  lemma ErrorExamples()
    ensures ResolveMaType(MaStr("ema")) == Failure(NotInMathMap("ema"))
    ensures ResolveMaType(MaStr("bogus")) == Failure(NotInMathMap("bogus"))
  {
    NotANameInLowerCase("ema");
    NotANameInLowerCase("bogus");
  }

  /** A string starting with a lower-case letter is neither integer text nor
      a table name. */
  lemma NotANameInLowerCase(s: string)
    requires |s| > 0 && 'a' <= s[0] <= 'z'
    ensures !IsIntLiteral(s) && s !in MathMap
  {
    forall i | 0 <= i < |MathMap|
      ensures MathMap[i] != s
    {
      assert 'A' <= MathMap[i][0] <= 'Z';
    }
  }
}
