/** The few Python string and path built-ins the media-generation code relies on:
    str(int), the `or` operator on optional strings, os.path.splitext and the
    suffix and name of a pathlib path. */
module PyStr {
  import opened Wrappers

  function DigitChar(d: nat): (c: char)
    requires d < 10
    ensures '0' <= c <= '9'
  {
    (48 + d) as char
  }

  predicate IsDigit(c: char) {
    '0' <= c <= '9'
  }

  /** Decimal form of a natural number, as Python's str() writes it. */
  function NatToString(n: nat): (s: string)
    ensures |s| >= 1
    ensures forall k :: 0 <= k < |s| ==> IsDigit(s[k])
    ensures n < 10 <==> |s| == 1
    decreases n
  {
    if n < 10 then [DigitChar(n)] else NatToString(n / 10) + [DigitChar(n % 10)]
  }

  /** Distinct numbers have distinct decimal forms. */
  lemma {:induction false} NatToStringInjective(a: nat, b: nat)
    requires NatToString(a) == NatToString(b)
    ensures a == b
    decreases a
  {
    if a >= 10 && b >= 10 {
      var sa, sb := NatToString(a), NatToString(b);
      assert sa == NatToString(a / 10) + [DigitChar(a % 10)];
      assert sb == NatToString(b / 10) + [DigitChar(b % 10)];
      assert sa[|sa| - 1] == DigitChar(a % 10);
      assert sb[|sb| - 1] == DigitChar(b % 10);
      assert NatToString(a / 10) == sa[..|sa| - 1];
      assert NatToString(b / 10) == sb[..|sb| - 1];
      NatToStringInjective(a / 10, b / 10);
    } else if a < 10 && b < 10 {
      assert NatToString(a)[0] == DigitChar(a);
      assert NatToString(b)[0] == DigitChar(b);
    }
  }

  /** str() of a Python int: a minus sign before the digits of a negative number. */
  function IntToString(i: int): (s: string)
    ensures |s| >= 1
    ensures s[0] == '-' <==> i < 0
    ensures forall k :: 0 < k < |s| ==> IsDigit(s[k])
    ensures i >= 0 ==> s == NatToString(i)
  {
    if i < 0 then "-" + NatToString(-i) else NatToString(i)
  }

  /** Different ints print differently. */
  lemma IntToStringInjective(s: int, t: int)
    requires IntToString(s) == IntToString(t)
    ensures s == t
  {
    if s < 0 && t < 0 {
      assert NatToString(-s) == IntToString(s)[1..];
      assert NatToString(-t) == IntToString(t)[1..];
      NatToStringInjective(-s, -t);
    } else if s >= 0 && t >= 0 {
      NatToStringInjective(s, t);
    }
  }

  /** Python's `value or default` for an optional string: None and "" are falsy. */
  function OrDefault(value: Option<string>, default: string): string {
    if value.Some? && value.value != "" then value.value else default
  }

  /** The label `seed or 'random'` puts into a default file name: both None and 0 are falsy. */
  function SeedLabel(seed: Option<int>): (tag: string)
    ensures tag == "random" <==> seed.None? || seed.value == 0
    ensures seed.Some? && seed.value != 0 ==> tag == IntToString(seed.value)
  {
    if seed.Some? && seed.value != 0 then IntToString(seed.value) else "random"
  }

  /** Index of the last occurrence of c in s, or -1 (str.rfind). */
  function LastIndexOf(s: string, c: char): (r: int)
    ensures -1 <= r < |s|
    ensures r >= 0 ==> s[r] == c
    ensures forall k :: r < k < |s| ==> s[k] != c
  {
    if |s| == 0 then -1
    else if s[|s| - 1] == c then |s| - 1
    else LastIndexOf(s[..|s| - 1], c)
  }

  predicate AllDots(s: string) {
    forall k :: 0 <= k < |s| ==> s[k] == '.'
  }

  /** Where os.path.splitext on a POSIX path cuts: at the last '.' of the final
      component, unless everything before that dot in the component is dots (a
      leading dot marks a hidden file, not an extension); -1 for no cut. */
  function ExtensionStart(p: string): (d: int)
    ensures -1 <= d < |p|
    ensures d >= 0 ==> p[d] == '.' && '/' !in p[d..] && '.' !in p[d + 1..]
  {
    var sep := LastIndexOf(p, '/');
    var dot := LastIndexOf(p, '.');
    if dot > sep && !AllDots(p[sep + 1..dot]) then
      TailAfterLast(p, dot, sep);
      dot
    else
      -1
  }

  /** os.path.splitext: the root and the extension, which together give back the path. */
  function SplitExt(p: string): (r: (string, string))
    ensures r.0 + r.1 == p
    ensures r.1 == "" || (r.1[0] == '.' && '/' !in r.1 && '.' !in r.1[1..])
  {
    var d := ExtensionStart(p);
    if d < 0 then (p, "")
    else
      var root, ext := p[..d], p[d..];
      assert ext[1..] == p[d + 1..];
      assert root + ext == p;
      (root, ext)
  }

  lemma TailAfterLast(p: string, dot: int, sep: int)
    requires 0 <= dot < |p| && p[dot] == '.' && -1 <= sep < dot
    requires forall k :: dot < k < |p| ==> p[k] != '.'
    requires forall k :: sep < k < |p| ==> p[k] != '/'
    ensures '/' !in p[dot..] && '.' !in p[dot + 1..]
  {
  }

  /** The extension is taken only when the part of the final component before it
      holds a character other than '.'; when there is such a dot, it is taken. */
  lemma SplitExtRule(p: string)
    ensures var sep := LastIndexOf(p, '/');
            var dot := LastIndexOf(p, '.');
            SplitExt(p).1 != "" <==> dot > sep && !AllDots(p[sep + 1..dot])
  {
    var d := ExtensionStart(p);
    if d >= 0 {
      assert SplitExt(p).1 == p[d..] && p[d..][0] == '.';
    }
  }

  /** The final component of a path (pathlib's `name`). */
  function Name(p: string): (n: string)
    ensures '/' !in n
    ensures |n| <= |p| && n == p[|p| - |n|..]
    ensures |n| == |p| || p[|p| - |n| - 1] == '/'
  {
    p[LastIndexOf(p, '/') + 1..]
  }

  /** The name of dir / name is the name itself when it holds no '/'. */
  lemma NameOfJoin(dir: string, name: string)
    requires '/' !in name
    ensures Name(Join(dir, name)) == name
  {
    var p := Join(dir, name);
    assert p[|dir|] == '/';
    assert p[|dir| + 1..] == name;
  }

  /** Two joins with the same last component have the same directory. */
  lemma JoinCancel(a: string, b: string, name: string)
    requires Join(a, name) == Join(b, name)
    ensures a == b
  {
    assert a == Join(a, name)[..|a|];
    assert b == Join(b, name)[..|b|];
  }

  /** pathlib's `suffix`: from the last '.' of the name, when that dot is neither
      the name's first nor its last character; otherwise empty. */
  function Suffix(p: string): (s: string)
    ensures s == "" || (|s| >= 2 && s[0] == '.' && '.' !in s[1..] && '/' !in s)
    ensures s != "" ==> |Name(p)| > |s| && Name(p)[|Name(p)| - |s|..] == s
    ensures s != "" <==> 0 < LastIndexOf(Name(p), '.') < |Name(p)| - 1
    ensures s != "" ==> s == Name(p)[LastIndexOf(Name(p), '.')..]
  {
    NameSuffix(Name(p))
  }

  /** The suffix rule on a final component. */
  function NameSuffix(name: string): (s: string)
    requires '/' !in name
    ensures s == "" || (|s| >= 2 && s[0] == '.' && '.' !in s[1..] && '/' !in s)
    ensures s != "" ==> |name| > |s| && name[|name| - |s|..] == s
    ensures s != "" <==> 0 < LastIndexOf(name, '.') < |name| - 1
    ensures s != "" ==> s == name[LastIndexOf(name, '.')..]
  {
    var i := LastIndexOf(name, '.');
    if 0 < i < |name| - 1 then
      var s := name[i..];
      assert s[1..] == name[i + 1..];
      assert name[|name| - |s|..] == s;
      s
    else ""
  }

  /** Every occurrence of `from` replaced by `to` (str.replace for one character). */
  function ReplaceChar(s: string, from: char, to: char): (r: string)
    ensures |r| == |s|
    ensures forall k :: 0 <= k < |s| ==> r[k] == (if s[k] == from then to else s[k])
  {
    if |s| == 0 then "" else ReplaceChar(s[..|s| - 1], from, to) + [if s[|s| - 1] == from then to else s[|s| - 1]]
  }

  /** Path joining with the `/` operator of pathlib. */
  function Join(dir: string, name: string): string {
    dir + "/" + name
  }

  /** Appending to a joined path appends to its last component. */
  lemma JoinAppend(dir: string, name: string, tail: string)
    ensures Join(dir, name) + tail == Join(dir, name + tail)
  {
    assert dir + "/" + name + tail == dir + "/" + (name + tail);
  }

  predicate HasPrefix(s: string, prefix: string) {
    |prefix| <= |s| && s[..|prefix|] == prefix
  }
}
