/**
 * Stand-ins for the .NET and Unity library calls that the three viewer
 * components rely on: nullable strings, the XR controller polling results,
 * `Mathf.Clamp`, `string.ToLower` and `Path.GetFileNameWithoutExtension`.
 */
module Runtime {

  /** `None` stands for a C# `null` reference. */
  datatype Option<T> = None | Some(value: T)

  /** `string.IsNullOrEmpty` on a nullable string. */
  predicate IsNullOrEmpty(s: Option<string>): (r: bool)
    ensures !r <==> s.Some? && |s.value| > 0
  {
    s.None? || s.value == ""
  }

  /**
   * What `TryGetFeatureValue` reported for one XR controller in one frame;
   * each field is `None` when that read failed.  `stickY` is the vertical
   * component of `primary2DAxis`, the only component the viewers use.
   */
  datatype ControllerInput = ControllerInput(
    stickY: Option<real>,
    primaryButton: Option<bool>,
    secondaryButton: Option<bool>,
    menuButton: Option<bool>)

  /** The read succeeded and reported the button as pressed. */
  predicate Pressed(button: Option<bool>) {
    button == Some(true)
  }

  // ---------------------------------------------------------------------
  // Mathf.Clamp

  function Distance(x: real, y: real): real {
    if x < y then y - x else x - y
  }

  /** `Mathf.Clamp(value, min, max)`: the point of [min, max] nearest to `value`. */
  function Clamp(value: real, min: real, max: real): (r: real)
    requires min <= max
    ensures min <= r <= max
    ensures min <= value <= max ==> r == value
    ensures forall y :: min <= y <= max ==> Distance(value, r) <= Distance(value, y)
  {
    if value < min then min else if value > max then max else value
  }

  // ---------------------------------------------------------------------
  // string.ToLower, restricted to the letters whose case mapping is a fixed
  // offset of 32: ASCII A-Z and the Latin-1 capitals U+00C0..U+00DE other
  // than the multiplication sign U+00D7.

  predicate IsUpper(c: char) {
    'A' <= c <= 'Z' || ('\U{00C0}' <= c <= '\U{00DE}' && c != '\U{00D7}')
  }

  predicate IsLower(c: char) {
    'a' <= c <= 'z' || ('\U{00E0}' <= c <= '\U{00FE}' && c != '\U{00F7}')
  }

  /** Lower-case form of one character; every other character is kept. */
  function LowerChar(c: char): (d: char)
    ensures !IsUpper(d)
    ensures IsUpper(c) ==> IsLower(d) && d as int == c as int + 32
    ensures !IsUpper(c) ==> d == c
  {
    if IsUpper(c) then (c as int + 32) as char else c
  }

  /** `s.ToLower()`: same length, each character lower-cased in place. */
  function ToLower(s: string): (r: string)
    ensures |r| == |s|
    ensures forall i :: 0 <= i < |s| ==> r[i] == LowerChar(s[i])
  {
    if s == [] then [] else [LowerChar(s[0])] + ToLower(s[1..])
  }

  /** Lower-casing a lower-cased string changes nothing. */
  lemma ToLowerIdempotent(s: string)
    ensures ToLower(ToLower(s)) == ToLower(s)
  {
    var once := ToLower(s);
    var twice := ToLower(once);
    forall i | 0 <= i < |s|
      ensures twice[i] == once[i]
    {
      assert !IsUpper(once[i]);
    }
  }

  /** A string already free of capitals is its own lower-case form. */
  lemma {:induction false} ToLowerFixesLowerCase(s: string)
    requires forall i :: 0 <= i < |s| ==> !IsUpper(s[i])
    ensures ToLower(s) == s
  {
    if s != [] {
      ToLowerFixesLowerCase(s[1..]);
    }
  }

  // ---------------------------------------------------------------------
  // Path.GetFileNameWithoutExtension, with '/' as the only directory
  // separator (the .NET behaviour on Unix-like targets such as Android).

  /** `s.LastIndexOf(c)`: the last position holding `c`, or -1. */
  function LastIndexOf(s: string, c: char): (k: int)
    ensures -1 <= k < |s|
    ensures k >= 0 ==> s[k] == c
    ensures forall j :: k < j < |s| ==> s[j] != c
  {
    if s == [] then -1
    else if s[|s| - 1] == c then |s| - 1
    else LastIndexOf(s[..|s| - 1], c)
  }

  /** `Path.GetFileName`: the longest suffix of `path` without a separator. */
  function GetFileName(path: string): (name: string)
    ensures |name| <= |path| && path[|path| - |name|..] == name
    ensures forall i :: 0 <= i < |name| ==> name[i] != '/'
    ensures |name| < |path| ==> path[|path| - |name| - 1] == '/'
  {
    path[LastIndexOf(path, '/') + 1..]
  }

  /**
   * `stem` is `name` without its extension: `name` cut before its last '.',
   * or the whole of `name` when it holds no '.'.
   */
  predicate IsStemOf(stem: string, name: string) {
    && |stem| <= |name| && name[..|stem|] == stem
    && if |stem| == |name| then forall i :: 0 <= i < |name| ==> name[i] != '.'
       else name[|stem|] == '.' && forall i :: |stem| < i < |name| ==> name[i] != '.'
  }

  /** `Path.GetFileNameWithoutExtension`: the stem of the file name. */
  function GetFileNameWithoutExtension(path: string): (stem: string)
    ensures IsStemOf(stem, GetFileName(path))
    ensures forall i :: 0 <= i < |stem| ==> stem[i] != '/'
  {
    var name := GetFileName(path);
    var dot := LastIndexOf(name, '.');
    if dot < 0 then
      assert IsStemOf(name, name);
      name
    else
      var stem := name[..dot];
      assert |stem| == dot && name[|stem|] == '.';
      assert IsStemOf(stem, name);
      stem
  }

  /** The contract of `LastIndexOf` determines its result. */
  lemma LastIndexOfUnique(s: string, c: char, k: int)
    requires -1 <= k < |s|
    requires k >= 0 ==> s[k] == c
    requires forall j :: k < j < |s| ==> s[j] != c
    ensures LastIndexOf(s, c) == k
  {
  }

  /** Paths without any '.' or '/' are their own file name stem. */
  lemma PlainNameIsOwnStem(path: string)
    requires forall i :: 0 <= i < |path| ==> path[i] != '/' && path[i] != '.'
    ensures GetFileNameWithoutExtension(path) == path
  {
    LastIndexOfUnique(path, '/', -1);
    LastIndexOfUnique(path, '.', -1);
  }

  /** A resource path of the demo catalog: its stem is its last segment. */
  lemma PhotoPathStem()
    ensures GetFileNameWithoutExtension("Photos/beach") == "beach"
  {
    LastIndexOfUnique("Photos/beach", '/', 6);
    assert GetFileName("Photos/beach") == "beach";
    LastIndexOfUnique("beach", '.', -1);
  }

  /** Only the last extension is cut. */
  lemma VideoPathStem()
    ensures GetFileNameWithoutExtension("Videos/tour.mp4") == "tour"
  {
    LastIndexOfUnique("Videos/tour.mp4", '/', 6);
    assert GetFileName("Videos/tour.mp4") == "tour.mp4";
    LastIndexOfUnique("tour.mp4", '.', 4);
  }

  /** A name that starts with its only '.' has an empty stem. */
  lemma HiddenFileStem()
    ensures GetFileNameWithoutExtension(".hidden") == ""
  {
    LastIndexOfUnique(".hidden", '/', -1);
    LastIndexOfUnique(".hidden", '.', 0);
  }
}
