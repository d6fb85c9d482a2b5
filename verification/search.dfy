/**
 The client-side name search of the user table: the rows shown are the
 records, in their original order, whose lower-cased name contains the
 lower-cased search term. Lower-casing is ASCII case folding; containment is
 JavaScript's `String.prototype.includes` on sequences of characters.
 */
module Search {

  /** A user record as the remote collection returns it. */
  datatype User = User(
    id: string,
    name: string,
    city: string,
    email: string,
    phone: string,
    status: bool,
    avatar: string)

  // ---------------------------------------------------------------------------
  // ASCII case folding
  // ---------------------------------------------------------------------------

  predicate IsUpper(c: char) {
    'A' <= c <= 'Z'
  }

  /** `c` folded to lower case; only the letters A to Z change. */
  function LowerChar(c: char): (d: char)
    ensures !IsUpper(d)
    ensures IsUpper(c) ==> 'a' <= d <= 'z' && d as int - c as int == 'a' as int - 'A' as int
    ensures !IsUpper(c) ==> d == c
  {
    if IsUpper(c) then (c as int - 'A' as int + 'a' as int) as char else c
  }

  /** `s.toLowerCase()` restricted to ASCII: every character folded in place. */
  function Lower(s: string): (r: string)
    ensures |r| == |s|
    ensures forall i :: 0 <= i < |s| ==> r[i] == LowerChar(s[i])
  {
    if s == [] then [] else [LowerChar(s[0])] + Lower(s[1..])
  }

  /** `a` and `b` differ at most in the ASCII case of their letters. */
  predicate SameUpToCase(a: string, b: string) {
    |a| == |b| && forall i :: 0 <= i < |a| ==> LowerChar(a[i]) == LowerChar(b[i])
  }

  lemma LowerSameUpToCase(a: string, b: string)
    ensures SameUpToCase(a, b) <==> Lower(a) == Lower(b)
  {
    if Lower(a) == Lower(b) {
      assert |a| == |Lower(a)| == |Lower(b)| == |b|;
      forall i | 0 <= i < |a| ensures LowerChar(a[i]) == LowerChar(b[i]) {
        assert Lower(a)[i] == Lower(b)[i];
      }
    }
  }

  // ---------------------------------------------------------------------------
  // Substring search
  // ---------------------------------------------------------------------------

  predicate StartsWith(s: string, prefix: string) {
    |prefix| <= |s| && s[..|prefix|] == prefix
  }

  /** `hay.includes(needle)`: try `needle` at every position from the left. */
  predicate Includes(hay: string, needle: string)
    decreases |hay|
  {
    StartsWith(hay, needle) || (hay != [] && Includes(hay[1..], needle))
  }

  /** `needle` occupies `hay[i..i + |needle|]`. */
  predicate OccursAt(hay: string, needle: string, i: nat) {
    i + |needle| <= |hay| && hay[i..i + |needle|] == needle
  }

  /** The scan finds `needle` exactly when it occurs somewhere in `hay`. */
  lemma {:induction false} IncludesIffOccurs(hay: string, needle: string)
    ensures Includes(hay, needle) <==> exists i: nat :: OccursAt(hay, needle, i)
    decreases |hay|
  {
    if StartsWith(hay, needle) {
      assert OccursAt(hay, needle, 0);
    } else if hay == [] {
    } else {
      IncludesIffOccurs(hay[1..], needle);
      if i: nat :| OccursAt(hay[1..], needle, i) {
        assert hay[1..][i..i + |needle|] == hay[i + 1..i + 1 + |needle|];
        assert OccursAt(hay, needle, i + 1);
      }
      if i: nat :| OccursAt(hay, needle, i) {
        assert hay[..|needle|] == hay[0..|needle|];
        if i > 0 {
          assert hay[1..][i - 1..i - 1 + |needle|] == hay[i..i + |needle|];
          assert OccursAt(hay[1..], needle, i - 1);
        }
      }
    }
  }

  /** `includes("")` holds of every string. */
  lemma IncludesEmpty(hay: string)
    ensures Includes(hay, [])
  {
    assert StartsWith(hay, []);
  }

  // ---------------------------------------------------------------------------
  // The filter
  // ---------------------------------------------------------------------------

  /** The search predicate applied to one row. */
  predicate Matches(u: User, term: string) {
    Includes(Lower(u.name), Lower(term))
  }

  /** The records of `data`, in their original order, whose lower-cased name contains the lower-cased term. */
  function Filter(data: seq<User>, term: string): (r: seq<User>)
    ensures |r| <= |data|
    ensures forall u :: u in r ==> u in data && Matches(u, term)
  {
    if data == [] then []
    else (if Matches(data[0], term) then [data[0]] else []) + Filter(data[1..], term)
  }

  /** `r` is obtained from `s` by deleting elements, keeping the order of the rest. */
  predicate IsSubsequence<T(==)>(r: seq<T>, s: seq<T>)
    decreases |s|
  {
    if r == [] then true
    else if s == [] then false
    else (r[0] == s[0] && IsSubsequence(r[1..], s[1..])) || IsSubsequence(r, s[1..])
  }

  /** The filtered rows appear in the collection in the same relative order. */
  lemma {:induction false} FilterIsSubsequence(data: seq<User>, term: string)
    ensures IsSubsequence(Filter(data, term), data)
  {
    if data != [] {
      FilterIsSubsequence(data[1..], term);
      var rest := Filter(data[1..], term);
      if Matches(data[0], term) {
        assert Filter(data, term) == [data[0]] + rest;
        assert ([data[0]] + rest)[1..] == rest;
      } else {
        assert Filter(data, term) == rest;
        if rest != [] {
          assert IsSubsequence(rest, data[1..]);
        }
      }
    }
  }

  /** Every occurrence of a matching record is kept, every other record dropped. */
  lemma {:induction false} FilterCounts(data: seq<User>, term: string, u: User)
    ensures multiset(Filter(data, term))[u] == if Matches(u, term) then multiset(data)[u] else 0
  {
    if data != [] {
      FilterCounts(data[1..], term, u);
      var head := if Matches(data[0], term) then [data[0]] else [];
      assert Filter(data, term) == head + Filter(data[1..], term);
      assert data == [data[0]] + data[1..];
      assert multiset(data) == multiset([data[0]]) + multiset(data[1..]);
    }
  }

  /** A record is shown exactly when it is in the collection and matches the term. */
  lemma FilterMembership(data: seq<User>, term: string, u: User)
    ensures u in Filter(data, term) <==> u in data && Matches(u, term)
  {
    FilterCounts(data, term, u);
  }

  /** An empty search box shows the whole collection, in order. */
  lemma {:induction false} FilterEmptyTerm(data: seq<User>)
    ensures Filter(data, "") == data
  {
    if data != [] {
      IncludesEmpty(Lower(data[0].name));
      assert Lower("") == "";
      FilterEmptyTerm(data[1..]);
    }
  }

  /** Filtering the filtered rows again with the same term changes nothing. */
  lemma {:induction false} FilterIdempotent(data: seq<User>, term: string)
    ensures Filter(Filter(data, term), term) == Filter(data, term)
  {
    if data != [] {
      var rest := Filter(data[1..], term);
      FilterIdempotent(data[1..], term);
      if Matches(data[0], term) {
        var r := [data[0]] + rest;
        assert Filter(data, term) == r;
        assert r[0] == data[0] && r[1..] == rest;
      } else {
        assert Filter(data, term) == rest;
      }
    }
  }

  /** Two terms that fold to the same lower-case string select the same rows. */
  lemma {:induction false} FilterSameLowered(data: seq<User>, t1: string, t2: string)
    requires Lower(t1) == Lower(t2)
    ensures Filter(data, t1) == Filter(data, t2)
  {
    if data != [] {
      FilterSameLowered(data[1..], t1, t2);
    }
  }

  /** The search ignores the ASCII case of the term. */
  lemma FilterCaseInsensitive(data: seq<User>, t1: string, t2: string)
    requires SameUpToCase(t1, t2)
    ensures Filter(data, t1) == Filter(data, t2)
  {
    LowerSameUpToCase(t1, t2);
    FilterSameLowered(data, t1, t2);
  }

  /** Two records, term "an": only "Ana" is shown. */
  lemma FilterExample(ana: User, bob: User)
    requires ana.name == "Ana" && bob.name == "Bob"
    ensures Filter([ana, bob], "an") == [ana]
  {
    assert Lower("Ana") == "ana";
    assert Lower("an") == "an";
    assert StartsWith("ana", "an");
    assert Lower("Bob") == "bob";
    assert !Includes("bob", "an") by {
      assert !StartsWith("bob", "an") && "bob"[1..] == "ob";
      assert !StartsWith("ob", "an") && "ob"[1..] == "b";
      assert !StartsWith("b", "an") && "b"[1..] == "";
      assert !Includes("", "an");
    }
    assert [ana, bob][1..] == [bob];
    assert [bob][1..] == [];
  }

}
