/** Values shared by every part of the model: optional values, points, floors
    and rooms, the text helpers the .NET runtime supplies (whitespace tests,
    invariant upper-casing, ordinal case-insensitive keys), and the bundle of
    numeric collaborators that the model keeps abstract. */
module Base {

  datatype Option<+T> = None | Some(value: T)

  /** A point of MathNet's Point3D; the default value is the origin. */
  datatype Point3 = Point3(x: real, y: real, z: real)

  const Origin: Point3 := Point3(0.0, 0.0, 0.0)

  /** The midpoint of two points (Point3D.MidPoint). */
  function MidPoint(p: Point3, q: Point3): (m: Point3)
    ensures m.x - p.x == q.x - m.x && m.y - p.y == q.y - m.y && m.z - p.z == q.z - m.z
  {
    Point3((p.x + q.x) / 2.0, (p.y + q.y) / 2.0, (p.z + q.z) / 2.0)
  }

  /** A room's outline, a sequence of (x, y) vertices. */
  type Polygon = seq<(real, real)>

  datatype Room = Room(name: Option<string>, polygon: Option<Polygon>)

  /** The two corners of a floor's axis-aligned bound (Bounds[0] and Bounds[1]). */
  datatype Bounds = Bounds(lo: Point3, hi: Point3)

  datatype Floor = Floor(id: string, name: Option<string>, bounds: Option<Bounds>, rooms: seq<Room>)

  /** One timestamped input of the 1-euro smoothing filter. */
  datatype Sample = Sample(point: Point3, time: int)

  /** The kernels of the kernel-weighted locator. */
  datatype KernelKind = Epanechnikov | GaussianKernel | InverseSquare

  /** What a C# `(int)` cast makes of NaN: int.MinValue on older x64
      runtimes, 0 where the cast saturates; never positive. */
  type NaNCast = c: int | c <= 0

  /** Foreign numeric code the model does not open up: Euclidean distance
      (a square root), Polygon.EnclosesPoint, the 1-euro filter (its output
      after being fed the given samples, oldest first) and the kernels with
      their configured parameters. Reals have no NaN, so the values a 0/0
      division leaves behind are opaque members of the bundle as well: the
      point (NaN, NaN, NaN), a NaN double, and the cast of NaN to int. */
  datatype Numerics = Numerics(
    distance: (Point3, Point3) -> real,
    encloses: (Polygon, real, real) -> bool,
    smooth: seq<Sample> -> Point3,
    kernel: (KernelKind, real) -> real,
    nanPoint: Point3,
    nan: real,
    nanAsInt: NaNCast)

  /** The first room whose polygon contains the point's (x, y) projection;
      a room without a polygon never matches. */
  function FirstEnclosing(rooms: seq<Room>, p: Point3, num: Numerics): (r: Option<Room>)
    ensures r.Some? ==> r.value in rooms && r.value.polygon.Some?
                        && num.encloses(r.value.polygon.value, p.x, p.y)
    ensures r.Some? ==> exists i :: 0 <= i < |rooms| && rooms[i] == r.value
                          && forall k :: 0 <= k < i ==> !(rooms[k].polygon.Some? && num.encloses(rooms[k].polygon.value, p.x, p.y))
    ensures r.None? ==> forall k :: 0 <= k < |rooms| && rooms[k].polygon.Some?
                          ==> !num.encloses(rooms[k].polygon.value, p.x, p.y)
  {
    if rooms == [] then None
    else if rooms[0].polygon.Some? && num.encloses(rooms[0].polygon.value, p.x, p.y) then Some(rooms[0])
    else FirstEnclosing(rooms[1..], p, num)
  }

  function Abs(x: real): real { if x < 0.0 then -x else x }
  function MinR(a: real, b: real): real { if a <= b then a else b }
  function MaxR(a: real, b: real): real { if a >= b then a else b }

  /** A C# cast of a double to int: truncation toward zero. */
  function Trunc(x: real): (r: int)
    ensures x >= 0.0 ==> r as real <= x < r as real + 1.0
    ensures x < 0.0 ==> r as real - 1.0 < x <= r as real
  {
    if x >= 0.0 then x.Floor else -((-x).Floor)
  }

  /** The whitespace characters of Char.IsWhiteSpace that the model knows. */
  predicate IsWhite(c: char)
  {
    c == ' ' || ('\t' <= c <= '\r') || c == '\U{0085}' || c == '\U{00A0}' || c == '\U{1680}'
    || ('\U{2000}' <= c <= '\U{200A}') || c == '\U{2028}' || c == '\U{2029}' || c == '\U{202F}'
    || c == '\U{205F}' || c == '\U{3000}'
  }

  /** string.IsNullOrWhiteSpace */
  predicate IsBlank(s: Option<string>)
  {
    s.None? || forall k :: 0 <= k < |s.value| ==> IsWhite(s.value[k])
  }

  /** string.Trim: drop leading and trailing whitespace. */
  function Trim(s: string): (r: string)
    ensures |r| <= |s|
    ensures r != [] ==> !IsWhite(r[0]) && !IsWhite(r[|r| - 1])
    ensures r == [] <==> forall k :: 0 <= k < |s| ==> IsWhite(s[k])
  {
    TrimEnd(TrimStart(s))
  }

  function TrimStart(s: string): (r: string)
    ensures |r| <= |s| && r == s[|s| - |r|..]
    ensures r != [] ==> !IsWhite(r[0])
    ensures r == [] <==> forall k :: 0 <= k < |s| ==> IsWhite(s[k])
  {
    if s != [] && IsWhite(s[0]) then TrimStart(s[1..]) else s
  }

  function TrimEnd(s: string): (r: string)
    ensures |r| <= |s| && r == s[..|r|]
    ensures r != [] ==> !IsWhite(r[|r| - 1])
    ensures r == [] <==> forall k :: 0 <= k < |s| ==> IsWhite(s[k])
  {
    if s != [] && IsWhite(s[|s| - 1]) then TrimEnd(s[..|s| - 1]) else s
  }

  /** Invariant upper-casing of one character (ASCII letters only). */
  function UpperChar(c: char): char
  {
    if 'a' <= c <= 'z' then (c as int - 32) as char else c
  }

  function Upper(s: string): (r: string)
    ensures |r| == |s| && forall k :: 0 <= k < |s| ==> r[k] == UpperChar(s[k])
  {
    seq(|s|, k requires 0 <= k < |s| => UpperChar(s[k]))
  }

  /** Invariant lower-casing of one character (ASCII letters only). */
  function LowerChar(c: char): char
  {
    if 'A' <= c <= 'Z' then (c as int + 32) as char else c
  }

  function Lower(s: string): (r: string)
    ensures |r| == |s| && forall k :: 0 <= k < |s| ==> r[k] == LowerChar(s[k])
  {
    seq(|s|, k requires 0 <= k < |s| => LowerChar(s[k]))
  }

  /** The key under which a dictionary built with StringComparer.OrdinalIgnoreCase
      files a string: two strings are the same key when they agree after
      upper-casing. */
  function Key(s: string): string { Upper(s) }

  lemma {:induction false} KeyIgnoresCase(s: string)
    ensures Key(Lower(s)) == Key(s) && Key(Upper(s)) == Key(s)
  {
    var a, b, c := Key(Lower(s)), Key(s), Key(Upper(s));
    forall k | 0 <= k < |s| ensures a[k] == b[k] && c[k] == b[k] {
      var ch := s[k];
      if 'a' <= ch <= 'z' {
        assert Lower(s)[k] == ch && Upper(s)[k] == (ch as int - 32) as char;
      } else if 'A' <= ch <= 'Z' {
        assert Lower(s)[k] == (ch as int + 32) as char && Upper(s)[k] == ch;
      }
    }
  }

  function StartsWith(s: string, prefix: string): bool
  {
    |prefix| <= |s| && s[..|prefix|] == prefix
  }
}
