/**
  The keyboard controls: JavaScript's `parseInt` applied to the key name, the
  digits 1 to 8 selecting a template, `c` cycling the palette and the space bar
  setting off an explosion.
 */
module Keys {
  import opened Basics
  import opened Templates

  /** The templates bound to the keys 1 to 8, in that order. */
  const KeyTemplates: seq<Template> := [Heart, Flower, Saturn, Firework, Spiral, Sphere, Star, Butterfly]

  /** The white space `parseInt` skips before the number (the Unicode space separators other than these are not modelled). */
  predicate IsSpace(c: char) {
    c == ' ' || c == '\t' || c == '\n' || c == '\r' || c == '\U{000B}' || c == '\U{000C}'
    || c == '\U{00A0}' || c == '\U{FEFF}' || c == '\U{2028}' || c == '\U{2029}'
  }

  /** The value of `c` as a digit in base `radix` (10 or 16), if it is one. */
  function DigitValue(c: char, radix: nat): (d: Option<nat>)
    requires radix == 10 || radix == 16
    ensures d.Some? ==> d.value < radix
    ensures '0' <= c <= '9' ==> d == Some((c - '0') as nat)
    ensures radix == 10 && d.Some? ==> '0' <= c <= '9'
  {
    if '0' <= c <= '9' then Some((c - '0') as nat)
    else if radix == 16 && 'a' <= c <= 'f' then Some((c - 'a') as nat + 10)
    else if radix == 16 && 'A' <= c <= 'F' then Some((c - 'A') as nat + 10)
    else None
  }

  /** The longest prefix of `s` made of digits in base `radix`. */
  function DigitPrefix(s: string, radix: nat): (n: nat)
    requires radix == 10 || radix == 16
    ensures n <= |s|
    ensures forall k :: 0 <= k < n ==> DigitValue(s[k], radix).Some?
    ensures n < |s| ==> DigitValue(s[n], radix).None?
  {
    if |s| == 0 || DigitValue(s[0], radix).None? then 0 else 1 + DigitPrefix(s[1..], radix)
  }

  /** The number written by the digits `s`, most significant first. */
  function DigitsValue(s: string, radix: nat): (v: nat)
    requires radix == 10 || radix == 16
    requires forall k :: 0 <= k < |s| ==> DigitValue(s[k], radix).Some?
  {
    if |s| == 0 then 0
    else DigitsValue(s[..|s| - 1], radix) * radix + DigitValue(s[|s| - 1], radix).value
  }

  /** The leading white space of `s`. */
  function SpacePrefix(s: string): (n: nat)
    ensures n <= |s|
    ensures forall k :: 0 <= k < n ==> IsSpace(s[k])
    ensures n < |s| ==> !IsSpace(s[n])
  {
    if |s| == 0 || !IsSpace(s[0]) then 0 else 1 + SpacePrefix(s[1..])
  }

  /**
    `parseInt(s)` without a radix: skip leading white space, read an optional sign,
    read base 16 after a `0x` or `0X` prefix and base 10 otherwise, and stop at the
    first character that is not a digit. No digit at all gives `NaN` (`None`).
   */
  function ParseInt(s: string): (r: Option<int>)
    ensures r.Some? ==> exists k :: 0 <= k < |s| && '0' <= s[k] <= '9'
    ensures r.Some? && r.value < 0 ==> exists k :: 0 <= k < |s| && s[k] == '-'
  {
    var sp := SpacePrefix(s);
    var t := s[sp..];
    var negative := |t| > 0 && t[0] == '-';
    var signed := |t| > 0 && (t[0] == '-' || t[0] == '+');
    var u := if signed then t[1..] else t;
    var hex := |u| >= 2 && u[0] == '0' && (u[1] == 'x' || u[1] == 'X');
    var radix := if hex then 16 else 10;
    var digits := if hex then u[2..] else u;
    var n := DigitPrefix(digits, radix);
    if n == 0 then None
    else
      var v: int := DigitsValue(digits[..n], radix);
      var start := sp + (if signed then 1 else 0);
      assert u == s[start..];
      assert hex ==> s[start] == '0';
      assert !hex ==> digits[0] == s[start] && '0' <= s[start] <= '9';
      assert negative ==> s[sp] == '-';
      Some(if negative then -v else v)
  }

  /** The number of the key that selects `t`: its position in the key list, counted from 1. */
  function KeyNumber(t: Template): (n: int)
    ensures 1 <= n <= |KeyTemplates| && KeyTemplates[n - 1] == t
  {
    match t
    case Heart => 1
    case Flower => 2
    case Saturn => 3
    case Firework => 4
    case Spiral => 5
    case Sphere => 6
    case Star => 7
    case Butterfly => 8
  }

  /** The template the number `num` selects: the one whose key number it is, if any. */
  function SelectTemplate(num: Option<int>): (t: Option<Template>)
    ensures forall tt :: t == Some(tt) <==> num == Some(KeyNumber(tt))
  {
    if num.Some? && 1 <= num.value <= 8 then Some(KeyTemplates[num.value - 1]) else None
  }

  /** The template a key selects: the one whose key number is `parseInt` of the key name, if any. */
  function DigitTemplate(key: string): (t: Option<Template>)
    ensures forall tt :: t == Some(tt) <==> ParseInt(key) == Some(KeyNumber(tt))
  {
    SelectTemplate(ParseInt(key))
  }

  /** The key named by the single digit `d`. */
  function DigitKey(d: nat): string
    requires d <= 9
  {
    [('0' as int + d) as char]
  }

  /** A single digit parses to its value. */
  lemma ParseDigitKey(d: nat)
    requires d <= 9
    ensures ParseInt(DigitKey(d)) == Some(d)
  {
    var s := DigitKey(d);
    assert SpacePrefix(s) == 0;
    assert s[0..] == s;
    assert DigitPrefix(s, 10) == 1;
    assert s[..1] == s;
    assert DigitsValue(s, 10) == DigitsValue(s[..0], 10) * 10 + d;
  }

  /** A digit key followed by anything that is not a digit parses to that digit alone. */
  lemma ParseDigitThenText(d: nat, rest: string)
    requires 1 <= d <= 9
    requires |rest| > 0 && DigitValue(rest[0], 10).None?
    ensures ParseInt(DigitKey(d) + rest) == Some(d)
  {
    var s := DigitKey(d) + rest;
    assert SpacePrefix(s) == 0;
    assert s[0..] == s;
    assert s[1..] == rest;
    assert DigitPrefix(s, 10) == 1;
    assert s[..1] == DigitKey(d);
    assert DigitsValue(s[..1], 10) == DigitsValue(s[..0], 10) * 10 + d;
  }

  /** The keys 1 to 8 select the templates in the order of the key list. */
  lemma DigitKeysSelectTemplates(d: nat)
    requires 1 <= d <= 8
    ensures DigitTemplate(DigitKey(d)) == Some(KeyTemplates[d - 1])
  {
    ParseDigitKey(d);
  }

  /** The keys 0 and 9 select nothing. */
  lemma OtherDigitsSelectNothing()
    ensures DigitTemplate(DigitKey(0)) == None
    ensures DigitTemplate(DigitKey(9)) == None
  {
    ParseDigitKey(0);
    ParseDigitKey(9);
  }

  /** The palette key and the space bar are not numbers, so they never select a template. */
  lemma ControlKeysAreNotNumbers()
    ensures ParseInt("c") == None && DigitTemplate("c") == None
    ensures ParseInt(" ") == None && DigitTemplate(" ") == None
  {
    var c := "c";
    assert SpacePrefix(c) == 0;
    assert c[0..] == c;
    assert DigitPrefix(c, 10) == 0;
    var sp := " ";
    assert SpacePrefix(sp) == 1 by {
      assert sp[1..] == "";
    }
    assert sp[1..] == "";
    assert DigitPrefix("", 10) == 0;
  }

  /** Every template has exactly one key: the key list holds each template once. */
  lemma EveryTemplateHasOneKey(t: Template)
    ensures exists k :: 0 <= k < |KeyTemplates| && KeyTemplates[k] == t
    ensures forall k, k' :: 0 <= k < k' < |KeyTemplates| ==> KeyTemplates[k] != KeyTemplates[k']
  {
    match t
    case Heart => assert KeyTemplates[0] == t;
    case Flower => assert KeyTemplates[1] == t;
    case Saturn => assert KeyTemplates[2] == t;
    case Firework => assert KeyTemplates[3] == t;
    case Spiral => assert KeyTemplates[4] == t;
    case Sphere => assert KeyTemplates[5] == t;
    case Star => assert KeyTemplates[6] == t;
    case Butterfly => assert KeyTemplates[7] == t;
  }
}
