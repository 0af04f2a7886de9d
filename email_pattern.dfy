// The e-mail shape test `/\S+@\S+\.\S+/.test(s)` shared by the registration
// and login forms: some substring is non-spaces, '@', non-spaces, '.', non-spaces.
module EmailPattern {
  import opened JsText

  /** A match of `\S+@\S+\.\S+` with its '@' at `i` and its '.' at `j`: at
      least one non-space before the '@', only non-spaces (at least one)
      between them, and a non-space after the '.'. */
  predicate EmailAt(s: string, i: int, j: int) {
    && 1 <= i && i + 2 <= j && j + 1 < |s|
    && s[i] == '@' && s[j] == '.'
    && !IsSpace(s[i - 1]) && !IsSpace(s[j + 1])
    && forall k :: i < k < j ==> !IsSpace(s[k])
  }

  /** `/\S+@\S+\.\S+/.test(s)`: the pattern is not anchored, so a match anywhere counts. */
  predicate EmailShape(s: string) {
    exists i, j | 0 <= i < j < |s| :: EmailAt(s, i, j)
  }

  /** The shape test as a scan: each '@' with a non-space before it is
      extended over the non-spaces after it, looking for a '.' followed by a
      non-space. */
  method TestEmail(s: string) returns (found: bool)
    ensures found == EmailShape(s)
  {
    var i := 0;
    while i < |s|
      invariant 0 <= i <= |s|
      invariant forall i', j' :: 0 <= i' < i && i' < j' < |s| ==> !EmailAt(s, i', j')
    {
      if i >= 1 && s[i] == '@' && !IsSpace(s[i - 1]) {
        var j := i + 1;
        while j < |s| && !IsSpace(s[j])
          invariant i + 1 <= j <= |s|
          invariant forall k :: i < k < j ==> !IsSpace(s[k])
          invariant forall j' :: i < j' < j ==> !EmailAt(s, i, j')
        {
          if j >= i + 2 && s[j] == '.' && j + 1 < |s| && !IsSpace(s[j + 1]) {
            assert EmailAt(s, i, j);
            return true;
          }
          j := j + 1;
        }
        forall j' | j <= j' < |s| ensures !EmailAt(s, i, j') {
          if j' > j {
            assert i < j < j' && IsSpace(s[j]);
          }
        }
      }
      i := i + 1;
    }
    return false;
  }

  /** A text with the shape is never blank, so a blank e-mail only ever gets
      the 'required' message. */
  lemma ShapedIsNotBlank(s: string)
    requires EmailShape(s)
    ensures Trim(s) != "" && s != ""
  {
    var i, j :| 0 <= i < j < |s| && EmailAt(s, i, j);
    BlankIffAllSpace(s);
    assert !IsSpace(s[i]);
  }

  /** The two demo addresses of the login page and the demo address of the
      registration page have the shape. */
  lemma DemoAddressesHaveShape()
    ensures EmailShape("demo@example.com")
    ensures EmailShape("admin@example.com")
  {
    assert EmailAt("demo@example.com", 4, 12);
    assert EmailAt("admin@example.com", 5, 13);
  }
}
