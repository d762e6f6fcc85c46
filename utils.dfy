/**
 * The naming helper of src/utils.js: `toMethodName` turns a state name into
 * the name of its observer accessor ("red" becomes "onRed").
 *
 * Case mapping is ASCII only: letters outside 'a'..'z' / 'A'..'Z' are left
 * as they are.
 */
module Utils {

  /** A JavaScript value, as far as `toMethodName` tells values apart. */
  datatype Value = Undefined | Null | Bool(b: bool) | Num(n: int) | Str(s: string)

  predicate IsLower(c: char) { 'a' <= c <= 'z' }
  predicate IsUpper(c: char) { 'A' <= c <= 'Z' }

  function ToUpper(c: char): (d: char)
    ensures !IsLower(d)
    ensures IsLower(c) ==> IsUpper(d) && d as int == c as int - 32
    ensures !IsLower(c) ==> d == c
  {
    if IsLower(c) then (c as int - 32) as char else c
  }

  function ToLower(c: char): (d: char)
    ensures !IsUpper(d)
    ensures IsUpper(c) ==> IsLower(d) && d as int == c as int + 32
    ensures !IsUpper(c) ==> d == c
  {
    if IsUpper(c) then (c as int + 32) as char else c
  }

  /** Two characters that are the same letter up to case (or the same non-letter). */
  predicate SameIgnoringCase(c: char, d: char) { ToLower(c) == ToLower(d) }

  /** Two strings that differ at most in the case of their letters. */
  predicate EqualIgnoringCase(a: string, b: string)
  {
    |a| == |b| && forall i :: 0 <= i < |a| ==> SameIgnoringCase(a[i], b[i])
  }

  /** `String.prototype.toLowerCase`, restricted to ASCII. */
  function LowerCase(s: string): (r: string)
    ensures |r| == |s|
    ensures forall i :: 0 <= i < |s| ==> r[i] == ToLower(s[i])
  {
    if s == [] then [] else [ToLower(s[0])] + LowerCase(s[1..])
  }

  /** A string without upper-case letters is its own lower case. */
  lemma LowerCaseKeepsLower(s: string)
    requires forall i :: 0 <= i < |s| ==> !IsUpper(s[i])
    ensures LowerCase(s) == s
  {
  }

  /**
   * `toMethodName`: anything but a non-empty string comes back unchanged;
   * a non-empty string `s` becomes "on" + upper-case(s[0]) + lower-case(s[1..]).
   */
  function ToMethodName(v: Value): (r: Value)
    ensures !v.Str? || v.s == [] ==> r == v
    ensures v.Str? && v.s != [] ==>
      && r.Str?
      && |r.s| == |v.s| + 2
      && r.s[..2] == "on"
      && r.s[2] == ToUpper(v.s[0])
      && forall i :: 3 <= i < |r.s| ==> r.s[i] == ToLower(v.s[i - 2])
  {
    if !v.Str? || |v.s| == 0 then v
    else Str("on" + [ToUpper(v.s[0])] + LowerCase(v.s[1..]))
  }

  /** The accessor name the binder installs for the state named `s`. */
  function AccessorName(s: string): (name: string)
  {
    ToMethodName(Str(s)).s
  }

  lemma UpperLowerAgree(c: char, d: char)
    ensures ToUpper(c) == ToUpper(d) <==> ToLower(c) == ToLower(d)
  {
  }

  /**
   * Two state names get the same accessor exactly when they differ only in
   * letter case; so "Red" and "red" collide in the binder.
   */
  lemma {:induction false} AccessorNameIgnoresCase(a: string, b: string)
    ensures AccessorName(a) == AccessorName(b) <==> EqualIgnoringCase(a, b)
  {
    var ra, rb := AccessorName(a), AccessorName(b);
    if a == [] || b == [] {
      if a != [] { assert |ra| == |a| + 2; }
      if b != [] { assert |rb| == |b| + 2; }
      return;
    }
    if EqualIgnoringCase(a, b) {
      UpperLowerAgree(a[0], b[0]);
      assert |ra| == |rb|;
      forall i | 0 <= i < |ra| ensures ra[i] == rb[i] {
        if i < 2 {
          assert ra[i] == ra[..2][i] && rb[i] == rb[..2][i];
        }
      }
    }
    if ra == rb {
      assert |a| == |b|;
      forall i | 0 <= i < |a| ensures SameIgnoringCase(a[i], b[i]) {
        if i == 0 {
          UpperLowerAgree(a[0], b[0]);
        } else {
          assert ra[i + 2] == rb[i + 2];
        }
      }
    }
  }

  /** A non-empty accessor name always begins with "on". */
  lemma AccessorStartsWithOn(s: string)
    requires s != []
    ensures |AccessorName(s)| >= 2 && AccessorName(s)[..2] == "on"
  {
  }

  /**
   * No state name ever produces the accessor "onStateChanges": everything
   * after the third character of an accessor is lower case.
   */
  lemma {:induction false} NeverOnStateChanges(s: string)
    ensures AccessorName(s) != "onStateChanges"
  {
    if |s| == 12 {
      var r := AccessorName(s);
      assert r[7] == ToLower(s[5]);
      assert !IsUpper(r[7]) && IsUpper("onStateChanges"[7]);
    }
  }

  /** The examples of tests/utils.spec.js. */
  lemma ToMethodNameExamples()
    ensures ToMethodName(Str("success")) == Str("onSuccess")
    ensures ToMethodName(Str("a")) == Str("onA")
    ensures ToMethodName(Str("")) == Str("")
    ensures ToMethodName(Num(2)) == Num(2)
    ensures ToMethodName(Undefined) == Undefined
  {
    LowerCaseKeepsLower("uccess");
    assert ToMethodName(Str("success")).s == "on" + "S" + "uccess";
  }
}
