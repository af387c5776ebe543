/**
 * The `complex` class of complexClass.cc: a complex number with integer real
 * and imaginary parts, setters that update the parts in place, and
 * `addComplex`/`subComplex` that build a new object from the parts of two.
 * Arithmetic is over unbounded integers.
 */
module ComplexClass {

  /** The value a `complex` object holds. */
  datatype ComplexNum = ComplexNum(re: int, im: int)

  const Zero: ComplexNum := ComplexNum(0, 0)

  /** Componentwise sum. */
  function Plus(a: ComplexNum, b: ComplexNum): ComplexNum
  {
    ComplexNum(a.re + b.re, a.im + b.im)
  }

  /** Componentwise difference. */
  function Minus(a: ComplexNum, b: ComplexNum): ComplexNum
  {
    ComplexNum(a.re - b.re, a.im - b.im)
  }

  /** The line `printComplex` writes: "r + ii", "r", "r - |i|i" or "ii". */
  datatype Format = RealPlusImg | RealOnly | RealMinusImg | ImgOnly

  class Complex {
    var re: int  // `real`
    var im: int  // `img`

    function Value(): ComplexNum
      reads this
    {
      ComplexNum(re, im)
    }

    /** `complex()`: 0 + 0i. */
    constructor Default()
      ensures Value() == Zero
    {
      re := 0;
      im := 0;
    }

    /** `complex(int num)`: both parts are `num`. */
    constructor FromNum(num: int)
      ensures Value() == ComplexNum(num, num)
    {
      re := num;
      im := num;
    }

    /** `complex(int r, int i)`. */
    constructor FromParts(r: int, i: int)
      ensures Value() == ComplexNum(r, i)
    {
      re := r;
      im := i;
    }

    /** `setReal`: changes the real part only. */
    method SetReal(r: int)
      modifies this`re
      ensures re == r && im == old(im)
    {
      re := r;
    }

    /** `setImg`: changes the imaginary part only. */
    method SetImg(i: int)
      modifies this`im
      ensures im == i && re == old(re)
    {
      im := i;
    }

    /** `setComplex`: sets both parts. */
    method SetComplex(r: int, i: int)
      modifies this
      ensures Value() == ComplexNum(r, i)
    {
      re := r;
      im := i;
    }

    /** `getReal`: a read of the real part. */
    function GetReal(): (r: int)
      reads this
      ensures r == Value().re
    {
      re
    }

    /** `getImg`: a read of the imaginary part. */
    function GetImg(): (i: int)
      reads this
      ensures i == Value().im
    {
      im
    }

    /**
     * The branch `printComplex` selects. Its if-chain has no final else; the
     * assertion shows that the last condition holds whenever it is reached, so
     * some line is always printed. Each format covers exactly one region of
     * the plane; in particular 0 + 0i prints as "0i".
     */
    function PrintComplex(): (f: Format)
      reads this
      ensures f == RealPlusImg <==> re != 0 && im > 0
      ensures f == RealOnly <==> re != 0 && im == 0
      ensures f == RealMinusImg <==> im < 0
      ensures f == ImgOnly <==> re == 0 && im >= 0
    {
      if re != 0 && im > 0 then RealPlusImg
      else if re != 0 && im == 0 then RealOnly
      else if im < 0 then RealMinusImg
      else assert re == 0; ImgOnly
    }

    /** `addComplex`: a new object holding the componentwise sum; neither operand changes. */
    method AddComplex(complexObj: Complex) returns (temp: Complex)
      ensures fresh(temp) && temp.Value() == Plus(Value(), complexObj.Value())
    {
      temp := new Complex.Default();
      temp.re := re + complexObj.re;
      temp.im := im + complexObj.im;
    }

    /** `subComplex`: a new object holding the componentwise difference; neither operand changes. */
    method SubComplex(complexObj: Complex) returns (temp: Complex)
      ensures fresh(temp) && temp.Value() == Minus(Value(), complexObj.Value())
    {
      temp := new Complex.Default();
      temp.re := re - complexObj.re;
      temp.im := im - complexObj.im;
    }
  }

  /** Addition is commutative. */
  lemma PlusCommutes(a: ComplexNum, b: ComplexNum)
    ensures Plus(a, b) == Plus(b, a)
  {
  }

  /** The default-constructed value is the identity of addition. */
  lemma ZeroIsIdentity(a: ComplexNum)
    ensures Plus(a, Zero) == a && Plus(Zero, a) == a
  {
  }

  /** A number minus itself is 0 + 0i. */
  lemma MinusSelfIsZero(a: ComplexNum)
    ensures Minus(a, a) == Zero
  {
  }

  /** Subtraction undoes addition and addition undoes subtraction. */
  lemma MinusPlusCancel(a: ComplexNum, b: ComplexNum)
    ensures Plus(Minus(a, b), b) == a
    ensures Minus(Plus(a, b), b) == a
  {
  }

  /**
   * The program's `main`: c1(7, 8), c2(5), c3 set to (7, 8), and
   * `result = c1.subComplex(c3)`; the four printed lines use the formats
   * listed, and the result is 0 + 0i, which prints as "0i".
   */
  method ComplexDemo() returns (formats: seq<Format>, result: ComplexNum)
    ensures formats == [RealPlusImg, RealPlusImg, RealPlusImg, ImgOnly]
    ensures result == Zero
  {
    var c1 := new Complex.FromParts(7, 8);
    formats := [c1.PrintComplex()];
    var c2 := new Complex.FromNum(5);
    formats := formats + [c2.PrintComplex()];
    var c3 := new Complex.Default();
    c3.SetComplex(7, 8);
    formats := formats + [c3.PrintComplex()];
    var res := new Complex.Default();
    var diff := c1.SubComplex(c3);
    res.SetComplex(diff.GetReal(), diff.GetImg());
    formats := formats + [res.PrintComplex()];
    result := res.Value();
  }
}
