/** Particle file names of Set.write_particles: identifier + "_id-" + a
    zero-padded decimal label + ".mrc". All names of one dataset are padded
    to one width, so that they sort like their labels: the digit count of
    the largest id when ids are kept, and of the number of particles when
    they are labelled by rank, which is one digit more than the ranks need
    when that number is a power of ten. */
module ParticleNames {
  import opened Common

  function Pow10(k: nat): (p: nat)
    ensures p >= 1
  {
    if k == 0 then 1 else 10 * Pow10(k - 1)
  }

  lemma {:induction false} Pow10Monotone(a: nat, b: nat)
    requires a <= b
    ensures Pow10(a) <= Pow10(b)
  {
    if a < b {
      Pow10Monotone(a, b - 1);
    }
  }

  /** The number of decimal digits of n: for n >= 1 this is floor(log10 n) + 1. */
  function NumDigits(n: nat): (k: nat)
    ensures k >= 1
    ensures n < Pow10(k)
    ensures k > 1 ==> Pow10(k - 1) <= n
  {
    if n < 10 then 1 else 1 + NumDigits(n / 10)
  }

  lemma NumDigitsBound(n: nat, width: nat)
    requires NumDigits(n) <= width
    ensures n < Pow10(width)
  {
    Pow10Monotone(NumDigits(n), width);
  }

  /** A smaller number has no more digits. */
  lemma {:induction false} NumDigitsMonotone(a: nat, b: nat)
    requires a <= b
    ensures NumDigits(a) <= NumDigits(b)
  {
    if a >= 10 {
      NumDigitsMonotone(a / 10, b / 10);
    }
  }

  function Digit(d: nat): char
    requires d < 10
  {
    ('0' as int + d) as char
  }

  function DigitValue(c: char): int
  {
    c as int - '0' as int
  }

  /** The decimal representation of n, without leading zeros. */
  function Decimal(n: nat): (s: string)
    ensures |s| == NumDigits(n)
    ensures forall i :: 0 <= i < |s| ==> '0' <= s[i] <= '9'
  {
    if n < 10 then [Digit(n)] else Decimal(n / 10) + [Digit(n % 10)]
  }

  function Zeros(k: nat): (s: string)
    ensures |s| == k
  {
    seq(k, _ => '0')
  }

  /** Left padding with '0' up to the given width; a longer string is kept whole. */
  function ZeroPad(s: string, width: nat): (r: string)
    ensures |r| >= width && |r| >= |s|
    ensures r[|r| - |s|..] == s
    ensures forall i :: 0 <= i < |r| - |s| ==> r[i] == '0'
  {
    if |s| >= width then s else Zeros(width - |s|) + s
  }

  /** Padding gives exactly width characters, unless the string is already
      that long, when it is kept as it is. */
  lemma ZeroPadExact(s: string, width: nat)
    ensures |s| >= width ==> ZeroPad(s, width) == s
    ensures |s| < width ==> |ZeroPad(s, width)| == width
  {
  }

  /** n formatted with the format spec `0<width>d`. */
  function FormatId(n: nat, width: nat): (s: string)
    ensures |s| >= width && |s| >= 1
    ensures forall i :: 0 <= i < |s| ==> '0' <= s[i] <= '9'
  {
    ZeroPad(Decimal(n), width)
  }

  /** The last w decimal digits of n, most significant first. */
  function Fixed(n: nat, w: nat): (s: string)
    ensures |s| == w
  {
    if w == 0 then [] else Fixed(n / 10, w - 1) + [Digit(n % 10)]
  }

  /** The number a string of decimal digits stands for. */
  function ParseDecimal(s: string): int
  {
    if s == [] then 0 else 10 * ParseDecimal(s[..|s| - 1]) + DigitValue(s[|s| - 1])
  }

  lemma {:induction false} FixedOfZero(k: nat)
    ensures Fixed(0, k) == Zeros(k)
  {
    if k > 0 {
      FixedOfZero(k - 1);
      assert Zeros(k) == Zeros(k - 1) + ['0'];
    }
  }

  /** Padding a string one digit longer to one more place pads the rest and
      keeps the last digit. */
  lemma ZeroPadSnoc(s: string, x: char, width: nat)
    requires width >= 1
    ensures ZeroPad(s + [x], width) == ZeroPad(s, width - 1) + [x]
  {
    if |s| < width - 1 {
      assert Zeros(width - 1 - |s|) + (s + [x]) == (Zeros(width - 1 - |s|) + s) + [x];
    }
  }

  /** The padded label splits into its leading digits, padded to one place
      less, and its last digit. */
  lemma FormatIdSnoc(n: nat, width: nat)
    requires NumDigits(n) <= width
    ensures width >= 1
    ensures n >= 10 ==> NumDigits(n / 10) <= width - 1
    ensures FormatId(n, width) == ZeroPad(if n < 10 then [] else Decimal(n / 10), width - 1) + [Digit(n % 10)]
  {
    var prefix := if n < 10 then [] else Decimal(n / 10);
    assert Decimal(n) == prefix + [Digit(n % 10)];
    ZeroPadSnoc(prefix, Digit(n % 10), width);
  }

  /** Padding the decimal representation is the fixed-width representation,
      whenever the width leaves room for every digit. */
  lemma {:induction false} FormatIdIsFixed(n: nat, width: nat)
    requires NumDigits(n) <= width
    ensures FormatId(n, width) == Fixed(n, width)
    decreases n, 1
  {
    if n < 10 {
      FormatIdOfDigit(n, width);
    } else {
      FormatIdIsFixedAbove(n, width);
    }
  }

  /** The inductive case of FormatIdIsFixed: a label of two or more digits. */
  lemma {:induction false} FormatIdIsFixedAbove(n: nat, width: nat)
    requires n >= 10 && NumDigits(n) <= width
    ensures FormatId(n, width) == Fixed(n, width)
    decreases n, 0
  {
    NumDigitsOfQuotient(n, width);
    FormatIdIsFixed(n / 10, width - 1);
    FormatIdStep(n, width);
  }

  /** Dropping the last digit of a multi-digit label leaves one digit fewer. */
  lemma NumDigitsOfQuotient(n: nat, width: nat)
    requires n >= 10 && NumDigits(n) <= width
    ensures width >= 1 && NumDigits(n / 10) <= width - 1
  {
  }

  /** Once the leading digits pad to their fixed-width representation, so
      does the whole label. */
  lemma FormatIdStep(n: nat, width: nat)
    requires n >= 10 && NumDigits(n) <= width
    requires FormatId(n / 10, width - 1) == Fixed(n / 10, width - 1)
    ensures FormatId(n, width) == Fixed(n, width)
  {
    var q := n / 10;
    var x := Digit(n % 10);
    FormatIdSnoc(n, width);
    assert FormatId(n, width) == ZeroPad(Decimal(q), width - 1) + [x];
    assert Fixed(n, width) == Fixed(q, width - 1) + [x];
  }

  /** A one-digit label padded to the width is zeros followed by the digit,
      its fixed-width representation. */
  lemma FormatIdOfDigit(n: nat, width: nat)
    requires n < 10 && width >= 1
    ensures FormatId(n, width) == Fixed(n, width)
  {
    DecimalOfDigit(n);
    FixedOfDigit(n, width);
    assert FormatId(n, width) == ZeroPad([Digit(n)], width);
  }

  /** A one-digit number is written as that digit alone. */
  lemma DecimalOfDigit(n: nat)
    requires n < 10
    ensures Decimal(n) == [Digit(n)]
  {
  }

  /** The fixed-width representation of a one-digit number is zeros followed
      by the digit. */
  lemma FixedOfDigit(n: nat, width: nat)
    requires n < 10 && width >= 1
    ensures Fixed(n, width) == Zeros(width - 1) + [Digit(n)]
  {
    assert n / 10 == 0 && n % 10 == n;
    FixedOfZero(width - 1);
  }

  lemma {:induction false} ParseFixed(n: nat, w: nat)
    requires n < Pow10(w)
    ensures ParseDecimal(Fixed(n, w)) == n
  {
    if w > 0 {
      var s := Fixed(n, w);
      assert s[..w - 1] == Fixed(n / 10, w - 1);
      ParseFixed(n / 10, w - 1);
    }
  }

  /** The padded label has exactly `width` characters and reads back as the label. */
  lemma FormatIdRoundTrip(n: nat, width: nat)
    requires NumDigits(n) <= width
    ensures |FormatId(n, width)| == width
    ensures ParseDecimal(FormatId(n, width)) == n
  {
    FormatIdIsFixed(n, width);
    NumDigitsBound(n, width);
    ParseFixed(n, width);
  }

  /** Strict lexicographic order on strings, by code point, as Python compares str. */
  predicate LexLess(s: string, t: string)
  {
    if |s| == 0 then |t| > 0
    else |t| > 0 && (s[0] < t[0] || (s[0] == t[0] && LexLess(s[1..], t[1..])))
  }

  lemma {:induction false} LexLessIrreflexive(s: string)
    ensures !LexLess(s, s)
  {
    if |s| > 0 {
      LexLessIrreflexive(s[1..]);
    }
  }

  lemma {:induction false} LexLessExtend(s: string, t: string, x: string, y: string)
    requires |s| == |t| && LexLess(s, t)
    ensures LexLess(s + x, t + y)
  {
    assert (s + x)[0] == s[0] && (t + y)[0] == t[0];
    if s[0] == t[0] && LexLess(s[1..], t[1..]) {
      LexLessExtend(s[1..], t[1..], x, y);
      assert (s + x)[1..] == s[1..] + x;
      assert (t + y)[1..] == t[1..] + y;
    }
  }

  lemma {:induction false} LexLessLast(s: string, a: char, b: char)
    requires a < b
    ensures LexLess(s + [a], s + [b])
  {
    if |s| > 0 {
      LexLessLast(s[1..], a, b);
      assert (s + [a])[1..] == s[1..] + [a];
      assert (s + [b])[1..] == s[1..] + [b];
    }
  }

  lemma {:induction false} LexLessPrefix(p: string, s: string, t: string)
    requires LexLess(s, t)
    ensures LexLess(p + s, p + t)
  {
    if |p| > 0 {
      LexLessPrefix(p[1..], s, t);
      assert (p + s)[1..] == p[1..] + s;
      assert (p + t)[1..] == p[1..] + t;
    } else {
      assert p + s == s && p + t == t;
    }
  }

  /** Fixed-width representations sort like the numbers they represent. */
  lemma {:induction false} FixedOrder(a: nat, b: nat, w: nat)
    requires a < b < Pow10(w)
    ensures LexLess(Fixed(a, w), Fixed(b, w))
  {
    assert w > 0;
    if a / 10 < b / 10 {
      FixedOrder(a / 10, b / 10, w - 1);
      LexLessExtend(Fixed(a / 10, w - 1), Fixed(b / 10, w - 1), [Digit(a % 10)], [Digit(b % 10)]);
    } else {
      assert a / 10 == b / 10 && a % 10 < b % 10;
      LexLessLast(Fixed(a / 10, w - 1), Digit(a % 10), Digit(b % 10));
    }
  }

  /** One particle file name: identifier + "_id-" + padded label + ".mrc". */
  function ParticleName(identifier: string, n: nat, width: nat): (name: string)
    ensures |name| == |identifier| + 4 + |FormatId(n, width)| + 4
    ensures name[..|identifier| + 4] == identifier + "_id-"
    ensures name[|name| - 4..] == ".mrc"
  {
    (identifier + "_id-") + (FormatId(n, width) + ".mrc")
  }

  /** The largest of the particle ids. */
  function MaxId(ids: seq<LabelId>): (m: LabelId)
    requires |ids| > 0
    ensures m in ids
    ensures forall i :: 0 <= i < |ids| ==> ids[i] <= m
  {
    if |ids| == 1 then ids[0]
    else
      var rest := MaxId(ids[1..]);
      if ids[0] >= rest then ids[0] else rest
  }

  /** The pad width: digits of the largest id, or of the particle count when
      particles are labelled by rank. */
  function NameWidth(ids: seq<LabelId>, keepIds: bool): (w: nat)
    requires |ids| > 0
    ensures w >= 1
  {
    if keepIds then
      NumDigits(MaxId(ids))
    else NumDigits(|ids|)
  }

  /** With ids kept, the width is the fewest digits that hold every id:
      every id fits in it and, past one digit, some id needs all of it.
      With ranks, it is the digit count of the number of ids, not of the
      largest rank (see RankWidthAtPowerOfTen). */
  lemma NameWidthBounds(ids: seq<LabelId>, keepIds: bool)
    requires |ids| > 0
    ensures var w := NameWidth(ids, keepIds);
      && (keepIds ==> forall i :: 0 <= i < |ids| ==> ids[i] < Pow10(w))
      && (keepIds && w > 1 ==> exists i :: 0 <= i < |ids| && Pow10(w - 1) <= ids[i])
      && (!keepIds ==> |ids| < Pow10(w) && (w > 1 ==> Pow10(w - 1) <= |ids|))
  {
    if keepIds {
      var m := MaxId(ids);
      var i :| 0 <= i < |ids| && ids[i] == m;
      assert Pow10(NumDigits(m)) > m;
    }
  }

  /** A number below 10^k, k >= 1, has at most k digits. */
  lemma NumDigitsBelow(n: nat, k: nat)
    requires k >= 1 && n < Pow10(k)
    ensures NumDigits(n) <= k
  {
    var d := NumDigits(n);
    if d > k {
      Pow10Monotone(k, d - 1);
    }
  }

  /** With ranks, 10^k particles are padded to k + 1 digits although every
      rank 0 .. 10^k - 1 fits in k: ten particles are named "_id-00" to
      "_id-09". */
  lemma RankWidthAtPowerOfTen(ids: seq<LabelId>, k: nat)
    requires k >= 1 && |ids| == Pow10(k)
    ensures NameWidth(ids, false) == k + 1
    ensures forall i :: 0 <= i < |ids| ==> NumDigits(NameLabel(ids, false, i)) <= k
  {
    var d := NumDigits(|ids|);
    if d <= k {
      Pow10Monotone(d, k);
    } else if d > k + 1 {
      Pow10Monotone(k + 1, d - 1);
    }
    forall i | 0 <= i < |ids|
      ensures NumDigits(NameLabel(ids, false, i)) <= k
    {
      NumDigitsBelow(i, k);
    }
  }

  /** The label written into the name of the i-th particle: its id, or its rank. */
  function NameLabel(ids: seq<LabelId>, keepIds: bool, i: nat): nat
    requires i < |ids|
  {
    if keepIds then ids[i] else i
  }

  /** What os.path.join puts in front of a file name: nothing for an empty
      directory or an absolute name, else the directory and one separator. */
  function JoinPrefix(dir: string, name: string): (p: string)
    ensures p == [] <==> dir == [] || (|name| > 0 && name[0] == '/')
    ensures p != [] ==> |dir| <= |p| <= |dir| + 1 && p[..|dir|] == dir && p[|p| - 1] == '/'
  {
    if dir == [] || (|name| > 0 && name[0] == '/') then []
    else if dir[|dir| - 1] == '/' then dir
    else dir + "/"
  }

  /** os.path.join of a directory and a file name. */
  function JoinPath(dir: string, name: string): (path: string)
    ensures |path| >= |name| && path[|path| - |name|..] == name
    ensures dir == [] || (|name| > 0 && name[0] == '/') ==> path == name
    ensures dir != [] && (|name| == 0 || name[0] != '/') ==>
      && |dir| + |name| <= |path| <= |dir| + 1 + |name|
      && path[..|dir|] == dir && path[|path| - |name| - 1] == '/'
  {
    JoinPrefix(dir, name) + name
  }

  /** The particle paths of write_particles, in id order; none for no ids. */
  function ParticlePaths(dir: string, identifier: string, ids: seq<LabelId>, keepIds: bool): (paths: seq<string>)
    ensures |paths| == |ids|
  {
    if |ids| == 0 then []
    else
      var width := NameWidth(ids, keepIds);
      seq(|ids|, i requires 0 <= i < |ids| =>
        JoinPath(dir, ParticleName(identifier, NameLabel(ids, keepIds, i), width)))
  }

  lemma ParticlePathAt(dir: string, identifier: string, ids: seq<LabelId>, keepIds: bool, i: nat)
    requires i < |ids|
    ensures ParticlePaths(dir, identifier, ids, keepIds)[i]
         == JoinPath(dir, ParticleName(identifier, NameLabel(ids, keepIds, i), NameWidth(ids, keepIds)))
  {
  }

  lemma ConcatParts(a: string, f: string, b: string)
    ensures var s := a + (f + b);
      && |s| == |a| + |f| + |b|
      && s[|a| + |f| ..] == b
      && s[|a| .. |a| + |f|] == f
  {
    var s := a + (f + b);
    assert s[|a| ..] == f + b;
  }

  /** Every label of one call fits the pad width. */
  lemma LabelFitsWidth(ids: seq<LabelId>, keepIds: bool, i: nat)
    requires i < |ids|
    ensures NumDigits(NameLabel(ids, keepIds, i)) <= NameWidth(ids, keepIds)
  {
    if keepIds {
      NumDigitsMonotone(ids[i], MaxId(ids));
    } else {
      NumDigitsMonotone(i, |ids|);
    }
  }

  /** The label read back from the digits just before ".mrc". */
  function LabelOfPath(path: string, width: nat): int
  {
    if |path| < width + 4 then -1
    else ParseDecimal(path[|path| - 4 - width .. |path| - 4])
  }

  /** Path i is a prefix, then the label padded to the common width (exactly
      that wide, and reading back as the label), then ".mrc". */
  lemma ParticlePathComposed(dir: string, identifier: string, ids: seq<LabelId>, keepIds: bool, i: nat)
    requires i < |ids|
    ensures var width, tag := NameWidth(ids, keepIds), NameLabel(ids, keepIds, i);
      var f := FormatId(tag, width);
      && |f| == width && ParseDecimal(f) == tag
      && ParticlePaths(dir, identifier, ids, keepIds)[i]
         == (JoinPrefix(dir, ParticleName(identifier, tag, width)) + (identifier + "_id-")) + (f + ".mrc")
  {
    var width := NameWidth(ids, keepIds);
    var tag := NameLabel(ids, keepIds, i);
    LabelFitsWidth(ids, keepIds, i);
    FormatIdRoundTrip(tag, width);
    var f := FormatId(tag, width);
    var name := ParticleName(identifier, tag, width);
    ParticlePathAt(dir, identifier, ids, keepIds, i);
    var pre, ip := JoinPrefix(dir, name), identifier + "_id-";
    assert name == ip + (f + ".mrc");
    Associate(pre, ip, f + ".mrc");
  }

  /** Every path of one call ends in its label, padded to the common width, and ".mrc". */
  lemma ParticlePathSuffix(dir: string, identifier: string, ids: seq<LabelId>, keepIds: bool, i: nat)
    requires i < |ids|
    ensures var p := ParticlePaths(dir, identifier, ids, keepIds)[i];
      var width := NameWidth(ids, keepIds);
      |p| >= width + 4 && p[|p| - 4 - width ..] == FormatId(NameLabel(ids, keepIds, i), width) + ".mrc"
  {
    var width, tag := NameWidth(ids, keepIds), NameLabel(ids, keepIds, i);
    ParticlePathComposed(dir, identifier, ids, keepIds, i);
    SuffixOfComposedPath(JoinPrefix(dir, ParticleName(identifier, tag, width)) + (identifier + "_id-"),
                         FormatId(tag, width));
  }

  /** The id (or rank) of every particle reads back from its path. */
  lemma ParticlePathLabel(dir: string, identifier: string, ids: seq<LabelId>, keepIds: bool, i: nat)
    requires i < |ids|
    ensures LabelOfPath(ParticlePaths(dir, identifier, ids, keepIds)[i], NameWidth(ids, keepIds))
         == NameLabel(ids, keepIds, i)
  {
    var width, tag := NameWidth(ids, keepIds), NameLabel(ids, keepIds, i);
    ParticlePathComposed(dir, identifier, ids, keepIds, i);
    LabelOfComposedPath(JoinPrefix(dir, ParticleName(identifier, tag, width)) + (identifier + "_id-"),
                        FormatId(tag, width), tag);
  }

  lemma Associate(a: string, b: string, c: string)
    ensures a + (b + c) == (a + b) + c
  {
  }

  lemma SuffixOfComposedPath(a: string, f: string)
    ensures var p := a + (f + ".mrc");
      && |p| >= |f| + 4
      && p[|p| - 4 - |f| ..] == f + ".mrc"
  {
    ConcatParts(a, f, ".mrc");
    var p := a + (f + ".mrc");
    assert p[|a| ..] == f + ".mrc";
  }

  lemma LabelOfComposedPath(a: string, f: string, n: nat)
    requires ParseDecimal(f) == n
    ensures LabelOfPath(a + (f + ".mrc"), |f|) == n
  {
    ConcatParts(a, f, ".mrc");
    var p := a + (f + ".mrc");
    assert p[|a| ..] == f + ".mrc";
  }

  /** All paths of one call have the same length. */
  lemma ParticlePathsUniformWidth(dir: string, identifier: string, ids: seq<LabelId>, keepIds: bool, i: nat, j: nat)
    requires i < |ids| && j < |ids|
    ensures var paths := ParticlePaths(dir, identifier, ids, keepIds); |paths[i]| == |paths[j]|
  {
    var width := NameWidth(ids, keepIds);
    var head := identifier + "_id-";
    var ni := ParticleName(identifier, NameLabel(ids, keepIds, i), width);
    var nj := ParticleName(identifier, NameLabel(ids, keepIds, j), width);
    ParticlePathAt(dir, identifier, ids, keepIds, i);
    ParticlePathAt(dir, identifier, ids, keepIds, j);
    LabelFitsWidth(ids, keepIds, i);
    LabelFitsWidth(ids, keepIds, j);
    FormatIdRoundTrip(NameLabel(ids, keepIds, i), width);
    FormatIdRoundTrip(NameLabel(ids, keepIds, j), width);
    assert |ni| == |head| + width + 4 == |nj|;
    assert ni[0] == head[0] == nj[0];
    assert JoinPrefix(dir, ni) == JoinPrefix(dir, nj);
  }

  /** Names sharing their identifier sort like their padded labels. */
  lemma ParticleNameOrder(identifier: string, a: nat, b: nat, width: nat)
    requires a < b && NumDigits(b) <= width
    ensures LexLess(ParticleName(identifier, a, width), ParticleName(identifier, b, width))
  {
    NumDigitsMonotone(a, b);
    NumDigitsBound(b, width);
    FormatIdIsFixed(a, width);
    FormatIdIsFixed(b, width);
    FixedOrder(a, b, width);
    var fa, fb := FormatId(a, width), FormatId(b, width);
    LexLessExtend(fa, fb, ".mrc", ".mrc");
    LexLessPrefix(identifier + "_id-", fa + ".mrc", fb + ".mrc");
  }

  /** Paths sort like their labels: by id with keepIds, by rank otherwise. */
  lemma ParticlePathsSorted(dir: string, identifier: string, ids: seq<LabelId>, keepIds: bool, i: nat, j: nat)
    requires i < |ids| && j < |ids|
    requires NameLabel(ids, keepIds, i) < NameLabel(ids, keepIds, j)
    ensures var paths := ParticlePaths(dir, identifier, ids, keepIds); LexLess(paths[i], paths[j])
  {
    var width := NameWidth(ids, keepIds);
    var a, b := NameLabel(ids, keepIds, i), NameLabel(ids, keepIds, j);
    LabelFitsWidth(ids, keepIds, j);
    ParticleNameOrder(identifier, a, b, width);
    var na, nb := ParticleName(identifier, a, width), ParticleName(identifier, b, width);
    var ip := identifier + "_id-";
    assert na[0] == ip[0] == nb[0];
    assert JoinPrefix(dir, na) == JoinPrefix(dir, nb);
    LexLessPrefix(JoinPrefix(dir, na), na, nb);
    ParticlePathAt(dir, identifier, ids, keepIds, i);
    ParticlePathAt(dir, identifier, ids, keepIds, j);
  }

  /** Particles with different labels get different paths. */
  lemma ParticlePathsDistinct(dir: string, identifier: string, ids: seq<LabelId>, keepIds: bool, i: nat, j: nat)
    requires i < |ids| && j < |ids|
    requires NameLabel(ids, keepIds, i) != NameLabel(ids, keepIds, j)
    ensures var paths := ParticlePaths(dir, identifier, ids, keepIds); paths[i] != paths[j]
  {
    var paths := ParticlePaths(dir, identifier, ids, keepIds);
    if NameLabel(ids, keepIds, i) < NameLabel(ids, keepIds, j) {
      ParticlePathsSorted(dir, identifier, ids, keepIds, i, j);
    } else {
      ParticlePathsSorted(dir, identifier, ids, keepIds, j, i);
    }
    LexLessIrreflexive(paths[i]);
    LexLessIrreflexive(paths[j]);
  }

  /** Example: ids 5 and 12 are padded to two digits. */
  lemma ParticlePathsExample()
    ensures ParticlePaths("particles", "ctrl_1", [5, 12], true)
         == ["particles/ctrl_1_id-05.mrc", "particles/ctrl_1_id-12.mrc"]
  {
    var ids: seq<LabelId> := [5, 12];
    assert MaxId(ids) == 12;
    assert NameWidth(ids, true) == 2;
    ParticlePathAt("particles", "ctrl_1", ids, true, 0);
    ParticlePathAt("particles", "ctrl_1", ids, true, 1);
    ExamplePath05();
    ExamplePath12();
  }

  lemma ExamplePath05()
    ensures JoinPath("particles", ParticleName("ctrl_1", 5, 2)) == "particles/ctrl_1_id-05.mrc"
  {
    assert Decimal(5) == "5";
    assert FormatId(5, 2) == Zeros(1) + "5" == ['0', '5'];
    assert ParticleName("ctrl_1", 5, 2) == ("ctrl_1" + "_id-") + (['0', '5'] + ".mrc");
    ExampleName('0', '5');
    ExampleLiterals();
  }

  lemma ExamplePath12()
    ensures JoinPath("particles", ParticleName("ctrl_1", 12, 2)) == "particles/ctrl_1_id-12.mrc"
  {
    assert Decimal(1) == "1";
    assert Decimal(12) == Decimal(1) + [Digit(2)] == ['1', '2'];
    assert FormatId(12, 2) == ['1', '2'];
    assert ParticleName("ctrl_1", 12, 2) == ("ctrl_1" + "_id-") + (['1', '2'] + ".mrc");
    ExampleName('1', '2');
    ExampleLiterals();
  }

  /** The two example names, spelled out. */
  lemma ExampleLiterals()
    ensures "particles/ctrl_1_id-" + ['0', '5'] + ".mrc" == "particles/ctrl_1_id-05.mrc"
    ensures "particles/ctrl_1_id-" + ['1', '2'] + ".mrc" == "particles/ctrl_1_id-12.mrc"
  {
  }

  lemma ExampleName(a: char, b: char)
    ensures JoinPath("particles", ("ctrl_1" + "_id-") + ([a, b] + ".mrc"))
         == "particles/ctrl_1_id-" + [a, b] + ".mrc"
  {
    var name := ("ctrl_1" + "_id-") + ([a, b] + ".mrc");
    assert name[0] == 'c';
    assert JoinPrefix("particles", name) == "particles/";
    assert "particles/" + name == ("particles/" + "ctrl_1_id-") + [a, b] + ".mrc";
  }
}
