/**
 * `parse_v_name`: splitting text of the form "{name} v{version}" with the
 * regular expression `^(.*) v(.*)$`, matched from the start of the text.
 *
 * In that expression `.` matches any character except a newline, so both
 * groups lie on one line, and `$` matches at the end of the text or just
 * before a newline that ends it. Both groups are greedy: the first one takes
 * as much as it can, so the split is at the last " v" of the line.
 */
module VName {
  import opened Wrappers
  import opened Errors

  /** `s` has the separator " v" at position `k`. */
  predicate SepAt(s: string, k: int)
  {
    0 <= k && k + 2 <= |s| && s[k] == ' ' && s[k + 1] == 'v'
  }

  predicate HasNewline(s: string)
  {
    exists i :: 0 <= i < |s| && s[i] == '\n'
  }

  /** The position of the last " v" in `s`. */
  function LastSep(s: string): (r: Option<nat>)
    ensures r.Some? ==> SepAt(s, r.value) && forall j :: r.value < j ==> !SepAt(s, j)
    ensures r.None? ==> forall j :: !SepAt(s, j)
    decreases |s|
  {
    if |s| < 2 then None
    else if SepAt(s, |s| - 2) then Some(|s| - 2)
    else
      var init := s[..|s| - 1];
      assert forall j :: SepAt(s, j) && j < |s| - 2 ==> SepAt(init, j);
      assert forall j :: SepAt(init, j) ==> SepAt(s, j);
      LastSep(init)
  }

  /** The text `$` leaves for the groups: a final newline is not part of any group. */
  function Line(s: string): (r: string)
    ensures r == s || r + "\n" == s
  {
    if |s| > 0 && s[|s| - 1] == '\n' then s[..|s| - 1] else s
  }

  function ParseVName(s: string): (r: Res<(string, string)>)
    ensures r.Err? ==> r == Err(NoVName(s))
    ensures r.Ok? ==> r.value.0 + " v" + r.value.1 == Line(s)
    ensures r.Ok? ==> forall j :: !SepAt(r.value.1, j)
  {
    var line := Line(s);
    if HasNewline(line) then Err(NoVName(s))
    else
      match LastSep(line)
      case None => Err(NoVName(s))
      case Some(k) =>
        var v := line[k + 2..];
        assert forall j :: SepAt(v, j) ==> SepAt(line, k + 2 + j);
        Ok((line[..k], v))
  }

  // ---- properties ----

  /** Text with no " v" at all is rejected. */
  lemma NoSeparatorRaises(s: string)
    requires forall j :: !SepAt(s, j)
    ensures ParseVName(s) == Err(NoVName(s))
  {
    var line := Line(s);
    assert forall j :: SepAt(line, j) ==> SepAt(s, j);
  }

  /** A newline anywhere but at the very end makes the match fail. */
  lemma InnerNewlineRaises(s: string, i: nat)
    requires i < |s| - 1 && s[i] == '\n'
    ensures ParseVName(s).Err?
  {
    assert Line(s)[i] == '\n';
  }

  /**
   * Putting a name and a version together and splitting them again gives
   * them back, whenever the version has no " v" of its own and neither part
   * has a newline. Either part may be empty.
   */
  lemma ParseJoined(n: string, v: string)
    requires !HasNewline(n) && !HasNewline(v)
    requires forall j :: !SepAt(v, j)
    ensures ParseVName(n + " v" + v) == Ok((n, v))
  {
    var s := n + " v" + v;
    var k := |n|;
    assert SepAt(s, k);
    assert Line(s) == s by {
      if |v| > 0 {
        assert s[|s| - 1] == v[|v| - 1];
      }
    }
    assert !HasNewline(s) by {
      forall i | 0 <= i < |s|
        ensures s[i] != '\n'
      {
        if i < k {
          assert s[i] == n[i];
        } else if i >= k + 2 {
          assert s[i] == v[i - k - 2];
        }
      }
    }
    forall j | k < j
      ensures !SepAt(s, j)
    {
      if k + 2 <= j && j + 2 <= |s| {
        assert s[j] == v[j - k - 2] && s[j + 1] == v[j - k - 1];
        assert !SepAt(v, j - k - 2);
      }
    }
    assert LastSep(s) == Some(k);
    assert s[..k] == n && s[k + 2..] == v;
  }

  lemma EmptyPartsAllowed()
    ensures ParseVName(" v") == Ok(("", ""))
  {
    ParseJoined("", "");
  }
}
