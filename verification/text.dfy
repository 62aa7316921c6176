/**
 * `s.charAt(0).toUpperCase() + s.slice(1)`, the capitalisation the Billing
 * page uses for plan names and UserDetail uses for its period buttons.
 */
module Text {

  predicate IsLower(c: char) {
    'a' <= c <= 'z'
  }

  /** Upper-cases an ASCII lower-case letter and leaves every other character alone. */
  function UpperChar(c: char): (u: char)
    ensures !IsLower(u)
    ensures IsLower(c) ==> u as int == c as int - 32
    ensures !IsLower(c) ==> u == c
  {
    if IsLower(c) then (c as int - 32) as char else c
  }

  /** Upper-cases the first character; the rest of the string is kept as it is. */
  function Capitalise(s: string): (r: string)
    ensures |r| == |s|
    ensures s == "" ==> r == ""
    ensures |s| > 0 ==> r[0] == UpperChar(s[0]) && r[1..] == s[1..]
  {
    if s == "" then "" else [UpperChar(s[0])] + s[1..]
  }

  /** Capitalising twice is capitalising once. */
  lemma CapitaliseIdempotent(s: string)
    ensures Capitalise(Capitalise(s)) == Capitalise(s)
  {
  }

  /** A string that does not start with a lower-case letter is shown unchanged. */
  lemma CapitaliseFixesCapitalised(s: string)
    requires s == "" || !IsLower(s[0])
    ensures Capitalise(s) == s
  {
  }

  /** Two strings capitalise alike exactly when they differ at most in the case of their first letter. */
  lemma CapitaliseCollapsesFirstCase(s: string, t: string)
    ensures Capitalise(s) == Capitalise(t) <==>
      (s == t || (|s| == |t| > 0 && s[1..] == t[1..] && UpperChar(s[0]) == UpperChar(t[0])))
  {
    if Capitalise(s) == Capitalise(t) && s != t {
      assert |s| == |t|;
      assert Capitalise(s)[0] == Capitalise(t)[0];
      assert Capitalise(s)[1..] == Capitalise(t)[1..];
    }
    if |s| == |t| > 0 && s[1..] == t[1..] && UpperChar(s[0]) == UpperChar(t[0]) {
      assert Capitalise(s) == [UpperChar(s[0])] + s[1..];
    }
  }
}
