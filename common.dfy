/** Values shared by every part of the Astrotracker model. */
module Common {

  /** Python's `None` / present value. */
  datatype Option<+T> = None | Some(value: T)

  /** The observer's frame, as built by astropy's `EarthLocation(lat, lon, height)`:
      degrees, degrees, metres. Only its three inputs are modelled. */
  datatype EarthLocation = EarthLocation(lat: real, lon: real, height: real)

  /** `p` is a prefix of `s`. */
  predicate IsPrefix(p: string, s: string) {
    |p| <= |s| && s[..|p|] == p
  }

  /** Python's `sub in s` on strings: `sub` occurs at some position of `s`. */
  predicate Contains(s: string, sub: string)
    decreases |s|
  {
    IsPrefix(sub, s) || (|s| > 0 && Contains(s[1..], sub))
  }

  /** `Contains` holds exactly when `sub` occurs at some index of `s`. */
  lemma {:induction false} ContainsAt(s: string, sub: string, k: nat)
    requires k + |sub| <= |s| && s[k..k + |sub|] == sub
    ensures Contains(s, sub)
    decreases k
  {
    if k > 0 {
      assert s[1..][k - 1..k - 1 + |sub|] == s[k..k + |sub|];
      ContainsAt(s[1..], sub, k - 1);
    } else {
      assert s[..|sub|] == sub;
    }
  }

  /** Whatever follows a prefix, the prefix occurs in the whole string. */
  lemma StartsWithContains(p: string, rest: string)
    ensures Contains(p + rest, p)
  {
    assert (p + rest)[0..|p|] == p;
    ContainsAt(p + rest, p, 0);
  }

  /** Whatever precedes a suffix, the suffix occurs in the whole string. */
  lemma EndsWithContains(front: string, q: string)
    ensures Contains(front + q, q)
  {
    assert (front + q)[|front|..|front| + |q|] == q;
    ContainsAt(front + q, q, |front|);
  }

  /** Every character of an occurring `sub` is a character of `s`. */
  lemma {:induction false} ContainsHasChar(s: string, sub: string, j: nat)
    requires Contains(s, sub) && j < |sub|
    ensures sub[j] in s
    decreases |s|
  {
    if IsPrefix(sub, s) {
      assert s[j] == sub[j];
    } else {
      ContainsHasChar(s[1..], sub, j);
      assert s == [s[0]] + s[1..];
    }
  }

  /** An occurring `sub` is no longer than `s`. */
  lemma {:induction false} ContainsShorter(s: string, sub: string)
    requires Contains(s, sub)
    ensures |sub| <= |s|
    decreases |s|
  {
    if !IsPrefix(sub, s) {
      ContainsShorter(s[1..], sub);
    }
  }
}
