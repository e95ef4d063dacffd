/** Node selectors: "key: value" entries folded into a map, later entries winning. */
module Selectors {
  import opened Api
  import opened GoStrings

  /** The pair an entry stands for; entries that do not split into exactly two parts are skipped. */
  function Entry(v: string): Option<(string, string)> {
    var parts := Split(TrimSpace(v), ':');
    if |parts| != 2 then None else Some((TrimSpace(parts[0]), TrimSpace(parts[1])))
  }

  lemma {:induction false} TrimLeftConcat(a: string, b: string)
    requires b != "" && !IsSpace(b[0])
    ensures TrimLeft(a + b) == TrimLeft(a) + b
  {
    if a == "" {
      assert a + b == b;
    } else {
      assert (a + b)[1..] == a[1..] + b;
      if IsSpace(a[0]) {
        TrimLeftConcat(a[1..], b);
      }
    }
  }

  lemma {:induction false} TrimRightConcat(a: string, b: string)
    requires a != "" && !IsSpace(a[|a| - 1])
    ensures TrimRight(a + b) == a + TrimRight(b)
  {
    if b == "" {
      assert a + b == a;
    } else {
      assert (a + b)[..|a + b| - 1] == a + b[..|b| - 1];
      if IsSpace(b[|b| - 1]) {
        TrimRightConcat(a, b[..|b| - 1]);
      }
    }
  }

  lemma {:induction false} TrimLeftTwice(s: string)
    ensures TrimLeft(TrimLeft(s)) == TrimLeft(s)
  {
    if s != "" && IsSpace(s[0]) {
      TrimLeftTwice(s[1..]);
    }
  }

  /** Trimming on the right first makes no difference to a whole trim. */
  lemma {:induction false} TrimRightFirst(s: string)
    ensures TrimSpace(TrimRight(s)) == TrimSpace(s)
    decreases |s|
  {
    if s != "" && IsSpace(s[|s| - 1]) {
      var t := s[..|s| - 1];
      TrimRightFirst(t);
      DropLastSpace(t, s[|s| - 1]);
      assert t + [s[|s| - 1]] == s;
    }
  }

  lemma {:induction false} DropLastSpace(t: string, c: char)
    requires IsSpace(c)
    ensures TrimSpace(t + [c]) == TrimSpace(t)
  {
    var s := t + [c];
    if t == "" {
      assert s[1..] == "" && TrimLeft(s) == TrimLeft("") == "";
    } else if IsSpace(t[0]) {
      assert s[1..] == t[1..] + [c];
      DropLastSpace(t[1..], c);
    } else {
      assert s[..|s| - 1] == t;
    }
  }

  lemma {:induction false} TrimFree(s: string, c: char)
    requires c !in s
    ensures c !in TrimLeft(s) && c !in TrimRight(s)
  {
    if s != "" {
      if IsSpace(s[0]) {
        TrimFree(s[1..], c);
      }
      if IsSpace(s[|s| - 1]) {
        TrimFree(s[..|s| - 1], c);
      }
    }
  }

  /** An entry counts exactly if it has one colon. */
  lemma EntryIff(v: string)
    ensures Entry(v).Some? <==> multiset(v)[':'] == 1
  {
    TrimCount(v, ':');
    SplitCount(TrimSpace(v), ':');
    hide TrimSpace, Split;
  }

  lemma TrimPair(key: string, value: string)
    ensures TrimSpace(key + [':'] + value) == TrimLeft(key) + [':'] + TrimRight(value)
  {
    var left := TrimLeft(key);
    assert key + [':'] + value == key + ([':'] + value);
    TrimLeftConcat(key, [':'] + value);
    assert left + ([':'] + value) == (left + [':']) + value;
    TrimRightConcat(left + [':'], value);
  }

  lemma TrimHalves(key: string, value: string)
    ensures TrimSpace(TrimLeft(key)) == TrimSpace(key) && TrimSpace(TrimRight(value)) == TrimSpace(value)
  {
    TrimLeftTwice(key);
    TrimRightFirst(value);
    hide TrimLeft, TrimRight;
  }

  lemma EntryOfParts(v: string, a: string, b: string)
    requires Split(TrimSpace(v), ':') == [a] + [b]
    ensures Entry(v) == Some((TrimSpace(a), TrimSpace(b)))
  {
    hide TrimSpace, Split;
  }

  /** An entry with one colon is the pair of what stands before and after it, without the space around either. */
  lemma EntryOfPair(key: string, value: string)
    requires ':' !in key && ':' !in value
    ensures Entry(key + [':'] + value) == Some((TrimSpace(key), TrimSpace(value)))
  {
    hide *;
    var left, right := TrimLeft(key), TrimRight(value);
    TrimPair(key, value);
    TrimHalves(key, value);
    TrimFree(key, ':');
    TrimFree(value, ':');
    SplitConcat(left, right, ':');
    SplitFree(left, ':');
    SplitFree(right, ':');
    EntryOfParts(key + [':'] + value, left, right);
  }

  /** Entry number n decides the value of key: it names key and no later entry does. */
  predicate Decides(entries: seq<string>, n: nat, key: string)
    requires n < |entries|
  {
    && Entry(entries[n]).Some? && Entry(entries[n]).value.0 == key
    && forall m :: n < m < |entries| && Entry(entries[m]).Some? ==> Entry(entries[m]).value.0 != key
  }

  /** The map holds exactly what the deciding entries say. */
  ghost predicate IsSelection(entries: seq<string>, selectors: map<string, string>) {
    && (forall key :: key in selectors ==>
          exists n: nat :: n < |entries| && Decides(entries, n, key) && selectors[key] == Entry(entries[n]).value.1)
    && (forall n: nat, key :: n < |entries| && Decides(entries, n, key) ==> key in selectors)
  }

  lemma DecidingEntryIsUnique(entries: seq<string>, n: nat, m: nat, key: string)
    requires n < |entries| && m < |entries|
    requires Decides(entries, n, key) && Decides(entries, m, key)
    ensures n == m
  {
  }

  /** A list of entries has one selection. */
  lemma SelectionIsUnique(entries: seq<string>, a: map<string, string>, b: map<string, string>)
    requires IsSelection(entries, a) && IsSelection(entries, b)
    ensures a == b
  {
    assert a.Keys == b.Keys;
    forall key | key in a
      ensures a[key] == b[key]
    {
      var n: nat :| n < |entries| && Decides(entries, n, key) && a[key] == Entry(entries[n]).value.1;
      var m: nat :| m < |entries| && Decides(entries, m, key) && b[key] == Entry(entries[m]).value.1;
      DecidingEntryIsUnique(entries, n, m, key);
    }
  }

  function Fold(entries: seq<string>): (selectors: map<string, string>) {
    if entries == [] then map[]
    else
      var front := Fold(entries[..|entries| - 1]);
      match Entry(entries[|entries| - 1])
      case None => front
      case Some(pair) => front[pair.0 := pair.1]
  }

  /** The loop that the two gateway builders and the debugger builder share. */
  method ParseSelectors(entries: seq<string>) returns (selectors: map<string, string>)
    ensures selectors == Fold(entries)
  {
    selectors := map[];
    for n := 0 to |entries|
      invariant selectors == Fold(entries[..n])
    {
      assert entries[..n + 1][..n] == entries[..n];
      var parts := Split(TrimSpace(entries[n]), ':');
      if |parts| != 2 {
        continue;
      }
      selectors := selectors[TrimSpace(parts[0]) := TrimSpace(parts[1])];
    }
    assert entries[..|entries|] == entries;
  }

  /** The fold is the last-wins selection. */
  lemma {:induction false} FoldSelects(entries: seq<string>)
    ensures IsSelection(entries, Fold(entries))
  {
    if entries != [] {
      var last := |entries| - 1;
      var front := entries[..last];
      FoldSelects(front);
      forall key | key in Fold(entries)
        ensures exists n: nat ::
                  n < |entries| && Decides(entries, n, key) && Fold(entries)[key] == Entry(entries[n]).value.1
      {
        if Entry(entries[last]).Some? && Entry(entries[last]).value.0 == key {
          assert Decides(entries, last, key);
        } else {
          var n: nat :| n < |front| && Decides(front, n, key) && Fold(front)[key] == Entry(front[n]).value.1;
          DecidesExtends(entries, n, key);
        }
      }
      forall n: nat, key | n < |entries| && Decides(entries, n, key)
        ensures key in Fold(entries)
      {
        if n < last {
          DecidesExtends(entries, n, key);
        }
      }
    }
  }

  lemma DecidesExtends(entries: seq<string>, n: nat, key: string)
    requires n < |entries| - 1
    ensures Decides(entries, n, key) <==>
            Decides(entries[..|entries| - 1], n, key) &&
            !(Entry(entries[|entries| - 1]).Some? && Entry(entries[|entries| - 1]).value.0 == key)
  {
    var front := entries[..|entries| - 1];
    assert forall m :: 0 <= m < |front| ==> front[m] == entries[m];
  }

  // ---------- printing a selector map and parsing it back ----------

  function PrintEntry(key: string, value: string): string {
    key + ": " + value
  }

  predicate Printable(s: string) {
    Trimmed(s) && ':' !in s
  }

  lemma {:induction false} TrimLeftStops(s: string)
    requires s == "" || !IsSpace(s[0])
    ensures TrimLeft(s) == s
  {
  }

  lemma TrimRightStops(s: string)
    requires s == "" || !IsSpace(s[|s| - 1])
    ensures TrimRight(s) == s
  {
  }

  lemma TrimmedStays(s: string)
    requires Trimmed(s)
    ensures TrimSpace(s) == s
  {
    TrimLeftStops(s);
    TrimRightStops(s);
  }

  lemma LeadingSpace(value: string)
    requires Trimmed(value)
    ensures TrimSpace(" " + value) == value
  {
    assert (" " + value)[1..] == value;
    assert TrimLeft(" " + value) == TrimLeft(value);
    TrimmedStays(value);
  }

  lemma EntryOfPrinted(key: string, value: string)
    requires Printable(key) && Printable(value)
    ensures Entry(PrintEntry(key, value)) == Some((key, value))
  {
    TrimmedStays(key);
    LeadingSpace(value);
    assert PrintEntry(key, value) == key + [':'] + (" " + value);
    hide Entry, PrintEntry, TrimSpace;
    EntryOfPair(key, " " + value);
  }

  /**
    The entries print the map m: each is one of its pairs and every pair is there, in any order, any number of
    times.
   */
  ghost predicate Prints(entries: seq<string>, m: map<string, string>) {
    && (forall e :: e in entries ==> exists key :: key in m && e == PrintEntry(key, m[key]))
    && (forall key :: key in m ==> PrintEntry(key, m[key]) in entries)
  }

  /** However a map of trimmed, colon-free keys and values is listed, parsing gives it back. */
  lemma PrintParse(entries: seq<string>, m: map<string, string>)
    requires forall key :: key in m ==> Printable(key) && Printable(m[key])
    requires Prints(entries, m)
    ensures Fold(entries) == m
  {
    forall key | key in m
      ensures exists n: nat :: n < |entries| && Decides(entries, n, key)
    {
      var k :| 0 <= k < |entries| && entries[k] == PrintEntry(key, m[key]);
      EntryOfPrinted(key, m[key]);
      var n := LastNaming(entries, key, k);
    }
    forall n: nat, key | n < |entries| && Decides(entries, n, key)
      ensures key in m && Entry(entries[n]).value.1 == m[key]
    {
      assert entries[n] in entries;
      var k :| k in m && entries[n] == PrintEntry(k, m[k]);
      EntryOfPrinted(k, m[k]);
    }
    assert IsSelection(entries, m);
    FoldSelects(entries);
    SelectionIsUnique(entries, Fold(entries), m);
  }

  lemma {:induction false} LastNaming(entries: seq<string>, key: string, k: nat) returns (n: nat)
    requires k < |entries| && Entry(entries[k]).Some? && Entry(entries[k]).value.0 == key
    ensures n < |entries| && Decides(entries, n, key)
    decreases |entries| - k
  {
    if m: nat :| k < m < |entries| && Entry(entries[m]).Some? && Entry(entries[m]).value.0 == key {
      n := LastNaming(entries, key, m);
    } else {
      n := k;
    }
  }
}
