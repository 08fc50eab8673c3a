/** The two string operations the search box relies on: `toLowerCase` and
    `includes`. Lower-casing covers the ASCII letters only. */
module Text {

  predicate IsUpper(c: char) { 'A' <= c <= 'Z' }

  /** Lower-case of one character: ASCII upper-case letters move down by 32,
      everything else is left alone. */
  function LowerChar(c: char): (r: char)
    ensures !IsUpper(r)
    ensures IsUpper(c) ==> r as int == c as int + 32
    ensures !IsUpper(c) ==> r == c
  {
    if IsUpper(c) then (c as int + 32) as char else c
  }

  /** `s.toLowerCase()`, character by character. */
  function Lower(s: string): (r: string)
    ensures |r| == |s|
    ensures forall i :: 0 <= i < |s| ==> r[i] == LowerChar(s[i])
  {
    if |s| == 0 then "" else [LowerChar(s[0])] + Lower(s[1..])
  }

  /** Lower-casing an already lower-cased string changes nothing. */
  lemma LowerIdempotent(s: string)
    ensures Lower(Lower(s)) == Lower(s)
  {
  }

  /** `sub` occurs in `s` starting at position `i`. */
  ghost predicate OccursAt(s: string, sub: string, i: int)
  {
    0 <= i && i + |sub| <= |s| && s[i..i + |sub|] == sub
  }

  /** `s.includes(sub)`: `sub` occurs somewhere in `s`; the empty string occurs everywhere. */
  function Includes(s: string, sub: string): (r: bool)
    ensures r <==> exists i :: OccursAt(s, sub, i)
    decreases |s|
  {
    if |sub| > |s| then false
    else if sub <= s then
      assert OccursAt(s, sub, 0);
      true
    else
      var r := Includes(s[1..], sub);
      assert r ==> exists i :: OccursAt(s, sub, i) by {
        if r {
          var i :| OccursAt(s[1..], sub, i);
          assert s[1..][i..i + |sub|] == s[i + 1..i + 1 + |sub|];
          assert OccursAt(s, sub, i + 1);
        }
      }
      assert (exists i :: OccursAt(s, sub, i)) ==> r by {
        if i :| OccursAt(s, sub, i) {
          assert i != 0;
          assert s[1..][i - 1..i - 1 + |sub|] == s[i..i + |sub|];
          assert OccursAt(s[1..], sub, i - 1);
        }
      }
      r
  }

  /** Case-insensitive containment, as the search box tests it. */
  predicate ContainsIgnoringCase(s: string, query: string)
  {
    Includes(Lower(s), Lower(query))
  }

  /** The empty query is contained in every name. */
  lemma EmptyQueryMatches(s: string)
    ensures ContainsIgnoringCase(s, "")
  {
  }

  /** Lower-casing the query first does not change which names it matches. */
  lemma QueryCaseIrrelevant(s: string, query: string)
    ensures ContainsIgnoringCase(s, Lower(query)) == ContainsIgnoringCase(s, query)
  {
    LowerIdempotent(query);
  }

  /** The upper-cased query "ABLE" matches the name "Table". */
  lemma AbleMatchesTable()
    ensures ContainsIgnoringCase("Table", "ABLE")
  {
  }

  /** A query longer than the name never matches it. */
  lemma LongQueryNeverMatches(s: string, query: string)
    requires |query| > |s|
    ensures !ContainsIgnoringCase(s, query)
  {
  }
}
