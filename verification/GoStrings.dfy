/** The parts of Go's strings and strconv packages that the controllers use. */
module GoStrings {
  import opened Api

  // ---------- strings.Split with a one-character separator ----------

  /** One more character in front of a split text. */
  function Prefix(c: char, sep: char, parts: seq<string>): (longer: seq<string>)
    requires |parts| >= 1
    ensures |longer| >= 1
  {
    if c == sep then [""] + parts else [[c] + parts[0]] + parts[1..]
  }

  function Split(s: string, sep: char): (parts: seq<string>)
    ensures |parts| >= 1
  {
    if s == "" then [""] else Prefix(s[0], sep, Split(s[1..], sep))
  }

  /** Prints the parts with one separator between neighbours. */
  function Join(parts: seq<string>, sep: char): string {
    if |parts| == 0 then ""
    else if |parts| == 1 then parts[0]
    else parts[0] + [sep] + Join(parts[1..], sep)
  }

  lemma PrefixAppend(c: char, sep: char, parts: seq<string>, more: seq<string>)
    requires |parts| >= 1
    ensures Prefix(c, sep, parts + more) == Prefix(c, sep, parts) + more
  {
  }

  lemma {:induction false} SplitConcat(a: string, b: string, sep: char)
    ensures Split(a + [sep] + b, sep) == Split(a, sep) + Split(b, sep)
  {
    var whole := a + [sep] + b;
    if a == "" {
      assert whole[1..] == b;
    } else {
      SplitConcat(a[1..], b, sep);
      assert whole[1..] == a[1..] + [sep] + b;
      PrefixAppend(a[0], sep, Split(a[1..], sep), Split(b, sep));
    }
  }

  lemma {:induction false} SplitFree(s: string, sep: char)
    requires sep !in s
    ensures Split(s, sep) == [s]
  {
    if s != "" {
      SplitFree(s[1..], sep);
      assert [s[0]] + s[1..] == s;
    }
  }

  lemma {:induction false} SplitJoin(parts: seq<string>, sep: char)
    requires |parts| >= 1
    requires forall p :: p in parts ==> sep !in p
    ensures Split(Join(parts, sep), sep) == parts
  {
    SplitFree(parts[0], sep);
    if |parts| == 1 {
      assert parts == [parts[0]];
    } else {
      SplitJoin(parts[1..], sep);
      var rest := Join(parts[1..], sep);
      assert Join(parts, sep) == parts[0] + [sep] + rest;
      assert parts == [parts[0]] + parts[1..];
      hide Split, Join;
      SplitConcat(parts[0], rest, sep);
    }
  }

  lemma {:induction false} JoinSplit(s: string, sep: char)
    ensures Join(Split(s, sep), sep) == s
  {
    if s != "" {
      JoinSplit(s[1..], sep);
      JoinPrefix(s[0], sep, Split(s[1..], sep));
    }
  }

  lemma JoinPrefix(c: char, sep: char, parts: seq<string>)
    requires |parts| >= 1
    ensures Join(Prefix(c, sep, parts), sep) == [c] + Join(parts, sep)
  {
    var longer := Prefix(c, sep, parts);
    if c == sep {
      assert longer[1..] == parts;
    } else if |parts| > 1 {
      assert longer[1..] == parts[1..];
    }
  }

  /** No part contains the separator, and every character of a part comes from the input. */
  lemma {:induction false} SplitParts(s: string, sep: char, p: string)
    requires p in Split(s, sep)
    ensures sep !in p
    ensures forall c :: c in p ==> c in s
  {
    if s != "" {
      var rest := Split(s[1..], sep);
      if s[0] == sep {
        if p != "" { SplitParts(s[1..], sep, p); }
      } else if p == [s[0]] + rest[0] {
        SplitParts(s[1..], sep, rest[0]);
      } else {
        assert p in rest[1..];
        SplitParts(s[1..], sep, p);
      }
    }
  }

  lemma {:induction false} JoinAppend(parts: seq<string>, sep: char, last: string)
    requires |parts| >= 1
    ensures Join(parts + [last], sep) == Join(parts, sep) + [sep] + last
  {
    var all := parts + [last];
    if |parts| > 1 {
      JoinAppend(parts[1..], sep, last);
      assert all[1..] == parts[1..] + [last];
    } else {
      assert all[1..] == [last];
    }
  }

  lemma {:induction false} JoinConcat(some: seq<string>, sep: char, more: seq<string>)
    requires |some| >= 1 && |more| >= 1
    ensures Join(some + more, sep) == Join(some, sep) + [sep] + Join(more, sep)
  {
    var all := some + more;
    if |some| == 1 {
      assert all[1..] == more;
    } else {
      JoinConcat(some[1..], sep, more);
      assert all[1..] == some[1..] + more;
    }
  }

  lemma {:induction false} JoinFree(parts: seq<string>, sep: char, c: char)
    requires c != sep
    requires forall p :: p in parts ==> c !in p
    ensures c !in Join(parts, sep)
  {
    if |parts| > 1 {
      JoinFree(parts[1..], sep, c);
    }
  }

  /** As many separators as there are gaps between parts. */
  lemma {:induction false} SplitCount(s: string, sep: char)
    ensures |Split(s, sep)| == multiset(s)[sep] + 1
  {
    if s != "" {
      SplitCount(s[1..], sep);
      assert s == [s[0]] + s[1..];
    }
  }

  // ---------- strings.TrimSpace ----------

  /** The characters with the Unicode property White_Space. */
  predicate IsSpace(c: char) {
    || c == ' '
    || '\U{0009}' <= c <= '\U{000D}'
    || c == '\U{0085}' || c == '\U{00A0}' || c == '\U{1680}'
    || '\U{2000}' <= c <= '\U{200A}'
    || c == '\U{2028}' || c == '\U{2029}' || c == '\U{202F}' || c == '\U{205F}' || c == '\U{3000}'
  }

  function TrimLeft(s: string): (t: string)
    ensures |t| <= |s|
    ensures t == "" || !IsSpace(t[0])
  {
    if s != "" && IsSpace(s[0]) then TrimLeft(s[1..]) else s
  }

  function TrimRight(s: string): (t: string)
    ensures |t| <= |s|
    ensures t == "" || !IsSpace(t[|t| - 1])
  {
    if s != "" && IsSpace(s[|s| - 1]) then TrimRight(s[..|s| - 1]) else s
  }

  function TrimSpace(s: string): string {
    TrimRight(TrimLeft(s))
  }

  /** A string that TrimSpace leaves as it is. */
  predicate Trimmed(s: string) {
    s == "" || (!IsSpace(s[0]) && !IsSpace(s[|s| - 1]))
  }

  predicate AllSpace(s: string) {
    forall c :: c in s ==> IsSpace(c)
  }

  lemma {:induction false} TrimLeftIs(s: string) returns (i: nat)
    ensures i <= |s| && TrimLeft(s) == s[i..] && AllSpace(s[..i])
  {
    i := 0;
    if s != "" && IsSpace(s[0]) {
      i := TrimLeftIs(s[1..]);
      assert s[1..][i..] == s[i + 1..] && s[..i + 1] == [s[0]] + s[1..][..i];
      i := i + 1;
    }
  }

  lemma {:induction false} TrimRightIs(s: string) returns (j: nat)
    ensures j <= |s| && TrimRight(s) == s[..j] && AllSpace(s[j..])
  {
    j := |s|;
    if s != "" && IsSpace(s[|s| - 1]) {
      j := TrimRightIs(s[..|s| - 1]);
      assert s[..|s| - 1][..j] == s[..j] && s[j..] == s[..|s| - 1][j..] + [s[|s| - 1]];
    }
  }

  /** Trimming cuts white space, and only that, from both ends. */
  lemma TrimSpaceIs(s: string) returns (i: nat, j: nat)
    ensures i <= j <= |s| && TrimSpace(s) == s[i..j] && AllSpace(s[..i]) && AllSpace(s[j..]) && Trimmed(s[i..j])
  {
    i := TrimLeftIs(s);
    var k := TrimRightIs(s[i..]);
    j := i + k;
    assert s[i..][..k] == s[i..j] && s[i..][k..] == s[j..];
    var t := TrimSpace(s);
    assert t != "" ==> t[0] == TrimLeft(s)[0];
  }

  /** Trimming loses no other character. */
  lemma TrimCount(s: string, c: char)
    requires !IsSpace(c)
    ensures multiset(TrimSpace(s))[c] == multiset(s)[c]
  {
    var i, j := TrimSpaceIs(s);
    assert s == s[..i] + s[i..j] + s[j..];
    assert c !in s[..i] && c !in s[j..];
    hide TrimSpace, AllSpace, IsSpace;
  }

  // ---------- strconv.Itoa and the port parser ----------

  predicate IsDigit(c: char) {
    '0' <= c <= '9'
  }

  function Digits(n: nat): (s: string)
    ensures s != ""
    ensures forall c :: c in s ==> IsDigit(c)
  {
    var last := [('0' as int + n % 10) as char];
    if n < 10 then last else Digits(n / 10) + last
  }

  function Value(s: string): nat
    requires forall c :: c in s ==> IsDigit(c)
  {
    if s == "" then 0
    else
      assert IsDigit(s[|s| - 1]);
      10 * Value(s[..|s| - 1]) + (s[|s| - 1] as int - '0' as int)
  }

  function Itoa(i: int): string {
    if i < 0 then "-" + Digits(-i) else Digits(i)
  }

  lemma {:induction false} ValueOfDigits(n: nat)
    ensures Value(Digits(n)) == n
  {
    var s := Digits(n);
    if n < 10 {
      assert s[..|s| - 1] == "";
    } else {
      ValueOfDigits(n / 10);
      assert s[..|s| - 1] == Digits(n / 10);
    }
  }

  lemma ItoaSign(i: int)
    ensures Itoa(i) != "" && (Itoa(i)[0] == '-' <==> i < 0)
  {
    if i >= 0 {
      assert IsDigit(Digits(i)[0]);
    }
  }

  lemma ItoaInjective(i: int, j: int)
    requires Itoa(i) == Itoa(j)
    ensures i == j
  {
    ItoaSign(i);
    ItoaSign(j);
    ValueOfDigits(if i < 0 then -i else i);
    ValueOfDigits(if j < 0 then -j else j);
    if i < 0 {
      assert Itoa(i)[1..] == Digits(-i) && Itoa(j)[1..] == Digits(-j);
    }
  }

  /** getPortInt32: a base-10 32-bit integer with an optional sign, accepted in 1..65535. */
  function GetPort(s: string): (port: Option<int>)
    ensures port.Some? ==> 1 <= port.value <= 65535
  {
    var body := if s != "" && (s[0] == '+' || s[0] == '-') then s[1..] else s;
    if body == "" || !(forall c :: c in body ==> IsDigit(c)) then None
    else
      var v: int := if s[0] == '-' then -(Value(body) as int) else Value(body) as int;
      if v < -0x8000_0000 || v > 0x7fff_ffff then None
      else if v < 1 || v > 65535 then None
      else Some(v)
  }

  /** A printed number is accepted back exactly when it is a legal port. */
  lemma PortRoundTrip(p: int)
    ensures GetPort(Itoa(p)) == if 1 <= p <= 65535 then Some(p) else None
  {
    var s := Itoa(p);
    if p < 0 {
      ValueOfDigits(-p);
      assert s[1..] == Digits(-p);
    } else {
      ValueOfDigits(p);
      assert IsDigit(s[0]);
    }
  }
}
