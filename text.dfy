/** String helpers standing in for Go's `strings` and `fmt` verbs that the core uses. */
module Text {

  /** `strings.Join`: the elements separated by `sep`. */
  function Join(parts: seq<string>, sep: string): (r: string)
    ensures parts == [] ==> r == ""
    ensures |parts| == 1 ==> r == parts[0]
  {
    if parts == [] then ""
    else if |parts| == 1 then parts[0]
    else parts[0] + sep + Join(parts[1..], sep)
  }

  /** `strings.HasPrefix`. */
  predicate HasPrefix(s: string, prefix: string) {
    |prefix| <= |s| && s[..|prefix|] == prefix
  }

  function DigitChar(d: nat): (c: char)
    requires d < 10
    ensures '0' <= c <= '9'
  {
    ('0' as int + d) as char
  }

  /** Decimal rendering of a natural number, as `%d` prints it. */
  function NatToString(n: nat): (r: string)
    ensures |r| >= 1
    ensures forall i | 0 <= i < |r| :: '0' <= r[i] <= '9'
    decreases n
  {
    if n < 10 then [DigitChar(n)] else NatToString(n / 10) + [DigitChar(n % 10)]
  }

  /** Decimal rendering of an integer, as `%d` prints it. */
  function IntToString(n: int): (r: string)
    ensures |r| >= 1
    ensures r[0] == '-' <==> n < 0
  {
    if n < 0 then "-" + NatToString(-n) else NatToString(n)
  }

  /** No character of `s` is one that `%q` escapes with a backslash of its own. */
  predicate Plain(s: string) {
    forall i | 0 <= i < |s| :: s[i] != '"' && s[i] != '\\'
  }

  /** The escaping `strconv.Quote` applies inside the quotes for the characters
      modelled here: a backslash before each `"` and each `\`. */
  function Escape(s: string): (r: string)
    ensures |r| >= |s|
    decreases |s|
  {
    if s == [] then ""
    else (if s[0] == '"' || s[0] == '\\' then ['\\', s[0]] else [s[0]]) + Escape(s[1..])
  }

  /** Reading escaped text back: a backslash stands for the character after it. */
  function Unescape(r: string): (s: string)
    ensures |s| <= |r|
    decreases |r|
  {
    if r == [] then ""
    else if r[0] == '\\' && |r| >= 2 then [r[1]] + Unescape(r[2..])
    else [r[0]] + Unescape(r[1..])
  }

  /** Escaping loses nothing: the original text can be read back. */
  lemma {:induction false} UnescapeEscape(s: string)
    ensures Unescape(Escape(s)) == s
    decreases |s|
  {
    if s != [] {
      var rest := Escape(s[1..]);
      UnescapeEscape(s[1..]);
      if s[0] == '"' || s[0] == '\\' {
        var r := ['\\', s[0]] + rest;
        assert r[0] == '\\' && r[1] == s[0] && r[2..] == rest;
      } else {
        var r := [s[0]] + rest;
        assert r[0] == s[0] && r[1..] == rest;
      }
      assert s == [s[0]] + s[1..];
    }
  }

  /** Text without quotes or backslashes is left as it is. */
  lemma {:induction false} EscapePlain(s: string)
    ensures Plain(s) ==> Escape(s) == s
    decreases |s|
  {
    if s != [] && Plain(s) {
      assert Plain(s[1..]) by {
        forall i | 0 <= i < |s[1..]| ensures s[1..][i] != '"' && s[1..][i] != '\\' {
          assert s[1..][i] == s[i + 1];
        }
      }
      EscapePlain(s[1..]);
      assert s == [s[0]] + s[1..];
    }
  }

  /** `%q` of a string: the escaped text between double quotes. Control and
      non-printable characters, which Go also escapes, are kept as they are. */
  function Quote(s: string): (r: string)
    ensures |r| >= |s| + 2 && r[0] == '"' && r[|r| - 1] == '"'
    ensures Unescape(r[1..|r| - 1]) == s
    ensures Plain(s) ==> r[1..|r| - 1] == s
  {
    var e := Escape(s);
    UnescapeEscape(s);
    EscapePlain(s);
    assert ("\"" + e + "\"")[1..|e| + 1] == e;
    "\"" + e + "\""
  }

  /** Go's `<` on strings: byte-wise order, which on UTF-8 text is code-point order. */
  predicate Less(a: string, b: string)
    decreases |a|
  {
    if a == [] then b != []
    else if b == [] then false
    else if a[0] != b[0] then a[0] < b[0]
    else Less(a[1..], b[1..])
  }

  lemma {:induction false} LessIrreflexive(a: string)
    ensures !Less(a, a)
    decreases |a|
  {
    if a != [] { LessIrreflexive(a[1..]); }
  }

  lemma {:induction false} LessTransitive(a: string, b: string, c: string)
    requires Less(a, b) && Less(b, c)
    ensures Less(a, c)
    decreases |a|
  {
    if a != [] && b != [] && c != [] && a[0] == b[0] && b[0] == c[0] {
      LessTransitive(a[1..], b[1..], c[1..]);
    }
  }

  lemma {:induction false} LessTotal(a: string, b: string)
    ensures Less(a, b) || a == b || Less(b, a)
    decreases |a|
  {
    if a != [] && b != [] && a[0] == b[0] {
      LessTotal(a[1..], b[1..]);
      if a[1..] == b[1..] {
        assert a == [a[0]] + a[1..] && b == [b[0]] + b[1..];
      }
    }
  }

  /** Not being smaller is transitive, which is what keeps insertion sorted. */
  lemma NotLessTransitive(a: string, b: string, c: string)
    requires !Less(a, b) && !Less(b, c)
    ensures !Less(a, c)
  {
    if Less(a, c) {
      LessTotal(b, c);
      if Less(c, b) { LessTransitive(a, c, b); }
    }
  }

  /** Key-value pairs whose keys ascend in Go's string order. */
  predicate SortedByKey(ps: seq<(string, string)>) {
    forall i, j | 0 <= i < j < |ps| :: !Less(ps[j].0, ps[i].0)
  }

  function InsertByKey(p: (string, string), ps: seq<(string, string)>): (r: seq<(string, string)>)
    ensures multiset(r) == multiset([p] + ps)
    decreases |ps|
  {
    if ps == [] || !Less(ps[0].0, p.0) then [p] + ps
    else
      var rest := InsertByKey(p, ps[1..]);
      assert ps == [ps[0]] + ps[1..];
      [ps[0]] + rest
  }

  lemma SortedCons(a: (string, string), t: seq<(string, string)>)
    requires SortedByKey(t)
    requires forall x | x in t :: !Less(x.0, a.0)
    ensures SortedByKey([a] + t)
  {
    var r := [a] + t;
    forall i, j | 0 <= i < j < |r| ensures !Less(r[j].0, r[i].0) {
      assert r[j] == t[j - 1];
      if i > 0 { assert r[i] == t[i - 1]; }
    }
  }

  lemma {:induction false} InsertByKeySorted(p: (string, string), ps: seq<(string, string)>)
    requires SortedByKey(ps)
    ensures SortedByKey(InsertByKey(p, ps))
    decreases |ps|
  {
    if ps == [] || !Less(ps[0].0, p.0) {
      forall x | x in ps ensures !Less(x.0, p.0) {
        var k :| 0 <= k < |ps| && ps[k] == x;
        if k > 0 { NotLessTransitive(x.0, ps[0].0, p.0); }
      }
      SortedCons(p, ps);
    } else {
      var rest := InsertByKey(p, ps[1..]);
      assert SortedByKey(ps[1..]) by {
        forall i, j | 0 <= i < j < |ps[1..]| ensures !Less(ps[1..][j].0, ps[1..][i].0) {
          assert ps[1..][j] == ps[j + 1] && ps[1..][i] == ps[i + 1];
        }
      }
      InsertByKeySorted(p, ps[1..]);
      forall x | x in rest ensures !Less(x.0, ps[0].0) {
        assert x in multiset([p] + ps[1..]);
        if x == p {
          if Less(p.0, ps[0].0) { LessTransitive(ps[0].0, p.0, ps[0].0); LessIrreflexive(ps[0].0); }
        } else {
          assert x in ps[1..];
          var k :| 0 <= k < |ps[1..]| && ps[1..][k] == x;
          assert x == ps[k + 1];
        }
      }
      SortedCons(ps[0], rest);
    }
  }

  /** The pairs reordered by key, as `fmt` orders the keys of a map it prints. */
  function SortByKey(ps: seq<(string, string)>): (r: seq<(string, string)>)
    ensures multiset(r) == multiset(ps)
    ensures SortedByKey(r)
    decreases |ps|
  {
    if ps == [] then []
    else
      var rest := SortByKey(ps[1..]);
      InsertByKeySorted(ps[0], rest);
      assert ps == [ps[0]] + ps[1..];
      InsertByKey(ps[0], rest)
  }
}
