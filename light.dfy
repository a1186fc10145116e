/** The light base class: a type fixed at construction, ambient, diffuse
    and specular colours, an intensity and an on/off flag, plus the helper
    that builds the name of a field of the shader's `lights` uniform array. */
module Lights {
  import opened Geometry

  datatype LightType = Directional | Point | Spot

  class Light {
    const lightType: LightType
    var ambient: Vec3
    var diffuse: Vec3
    var specular: Vec3
    var intensity: real
    var enabled: bool

    /** Light(type): dim white ambient, full white diffuse and specular,
        intensity 1, switched on. */
    constructor(lightType: LightType)
      ensures GetType() == lightType
      ensures ambient == Splat(0.1) && diffuse == Splat(1.0) && specular == Splat(1.0)
      ensures intensity == 1.0 && enabled
    {
      this.lightType := lightType;
      ambient := Splat(0.1);
      diffuse := Splat(1.0);
      specular := Splat(1.0);
      intensity := 1.0;
      enabled := true;
    }

    function GetType(): LightType {
      lightType
    }

    /** One colour for all three components; the ambient part is a fifth
        as bright. */
    method SetColor(color: Vec3)
      modifies this
      ensures diffuse == color && specular == color && ambient == Scale(0.2, color)
      ensures intensity == old(intensity) && enabled == old(enabled)
    {
      ambient := Scale(0.2, color);
      diffuse := color;
      specular := color;
    }

    method SetAmbient(ambient: Vec3)
      modifies this
      ensures this.ambient == ambient
      ensures diffuse == old(diffuse) && specular == old(specular)
      ensures intensity == old(intensity) && enabled == old(enabled)
    {
      this.ambient := ambient;
    }

    method SetDiffuse(diffuse: Vec3)
      modifies this
      ensures this.diffuse == diffuse
      ensures ambient == old(ambient) && specular == old(specular)
      ensures intensity == old(intensity) && enabled == old(enabled)
    {
      this.diffuse := diffuse;
    }

    method SetSpecular(specular: Vec3)
      modifies this
      ensures this.specular == specular
      ensures ambient == old(ambient) && diffuse == old(diffuse)
      ensures intensity == old(intensity) && enabled == old(enabled)
    {
      this.specular := specular;
    }
  }

  // ------------------------------------------------------- uniform names

  predicate IsDigit(c: char) {
    '0' <= c <= '9'
  }

  function Digit(d: int): (c: char)
    requires 0 <= d < 10
    ensures IsDigit(c)
  {
    ['0', '1', '2', '3', '4', '5', '6', '7', '8', '9'][d]
  }

  function DigitValue(c: char): (d: nat)
    requires IsDigit(c)
    ensures d < 10
  {
    (c as int - '0' as int)
  }

  /** The decimal digits of n, most significant first, without leading
      zeros. */
  function NatToString(n: nat): (s: string)
    ensures |s| > 0 && forall k :: 0 <= k < |s| ==> IsDigit(s[k])
  {
    if n < 10 then [Digit(n)] else NatToString(n / 10) + [Digit(n % 10)]
  }

  /** std::to_string on an int: a minus sign before the digits of a
      negative value. */
  function IntToString(n: int): (s: string)
    ensures |s| > 0
    ensures forall k :: 0 <= k < |s| ==> IsDigit(s[k]) || s[k] == '-'
  {
    if n < 0 then "-" + NatToString(-n) else NatToString(n)
  }

  /** The value of a string of decimal digits. */
  function ParseNat(s: string): nat
    requires forall k :: 0 <= k < |s| ==> IsDigit(s[k])
  {
    if |s| == 0 then 0 else ParseNat(s[..|s| - 1]) * 10 + DigitValue(s[|s| - 1])
  }

  /** The value of an optionally negative decimal string. */
  function ParseInt(s: string): int
    requires |s| > 0 && (s[0] == '-' || IsDigit(s[0]))
    requires forall k :: 1 <= k < |s| ==> IsDigit(s[k])
  {
    if s[0] == '-' then 0 - ParseNat(s[1..]) else ParseNat(s)
  }

  /** Reading back the digits gives the number. */
  lemma {:induction false} NatRoundTrip(n: nat)
    ensures ParseNat(NatToString(n)) == n
  {
    var s := NatToString(n);
    if n >= 10 {
      NatRoundTrip(n / 10);
      assert s[..|s| - 1] == NatToString(n / 10);
      assert DigitValue(s[|s| - 1]) == n % 10;
    } else {
      assert DigitValue(s[0]) == n;
    }
  }

  /** std::to_string is read back exactly, sign included. */
  lemma IntRoundTrip(n: int)
    ensures |IntToString(n)| > 0
    ensures IntToString(n)[0] == '-' || IsDigit(IntToString(n)[0])
    ensures forall k :: 1 <= k < |IntToString(n)| ==> IsDigit(IntToString(n)[k])
    ensures ParseInt(IntToString(n)) == n
  {
    if n < 0 {
      NegativeRoundTrip(-n);
    } else {
      NatRoundTrip(n);
    }
  }

  /** The negative branch of IntRoundTrip: a '-' and then the digits of m. */
  lemma NegativeRoundTrip(m: int)
    requires m > 0
    ensures IntToString(-m) == "-" + NatToString(m)
    ensures ParseInt("-" + NatToString(m)) == -m
  {
    var digits := NatToString(m);
    var s := "-" + digits;
    assert s[0] == '-' && s[1..] == digits;
    NatRoundTrip(m);
  }

  /** getUniformName(lightIndex, property): "lights[<index>].<property>". */
  function UniformName(lightIndex: int, property: string): (name: string)
    ensures |name| == 7 + |IntToString(lightIndex)| + 2 + |property|
    ensures name[..7] == "lights[" && name[7..7 + |IntToString(lightIndex)|] == IntToString(lightIndex)
    ensures name[7 + |IntToString(lightIndex)|..] == "]." + property
  {
    "lights[" + IntToString(lightIndex) + "]." + property
  }

  lemma UniformNameExample()
    ensures UniformName(0, "ambient") == "lights[0].ambient"
  {
    assert IntToString(0) == "0";
  }

  lemma UniformNameTwoDigits()
    ensures UniformName(12, "diffuse") == "lights[12].diffuse"
  {
    assert NatToString(1) == "1";
    assert IntToString(12) == "12" by {
      assert NatToString(12) == NatToString(1) + [Digit(2)];
    }
  }

  /** The first ']' of a name is the one right after the index. */
  lemma ClosingBracket(i: int, p: string)
    ensures UniformName(i, p)[7 + |IntToString(i)|] == ']'
    ensures forall k :: 7 <= k < 7 + |IntToString(i)| ==> UniformName(i, p)[k] != ']'
  {
    var name := UniformName(i, p);
    forall k | 7 <= k < 7 + |IntToString(i)|
      ensures name[k] != ']'
    {
      assert name[k] == name[7..7 + |IntToString(i)|][k - 7];
    }
  }

  /** Distinct (index, property) pairs get distinct names: the index ends
      at the first ']', which no decimal contains. */
  lemma {:induction false} UniformNameInjective(i: int, p: string, j: int, q: string)
    requires UniformName(i, p) == UniformName(j, q)
    ensures i == j && p == q
  {
    var a, b := IntToString(i), IntToString(j);
    var name := UniformName(i, p);
    ClosingBracket(i, p);
    ClosingBracket(j, q);
    assert |a| == |b|;
    assert a == b;
    IntRoundTrip(i);
    IntRoundTrip(j);
    assert name[7 + |a| + 2..] == p;
    assert UniformName(j, q)[7 + |b| + 2..] == q;
  }
}
