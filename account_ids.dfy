/** The account-identifier rules of the admin write form
    (src/components/NfcWriter.tsx): the validator behind `/^\d{5}$/` and the
    input normaliser `value.replace(/\D/g, '').substring(0, 5)`. */
module AccountIds {

  /** The length of an account identifier. */
  const IdLength: nat := 5

  /** A character matched by the regular-expression class `\d` without the
      `u` flag: an ASCII decimal digit. */
  predicate IsDigit(c: char)
  {
    '0' <= c <= '9'
  }

  predicate AllDigits(s: string)
  {
    forall i :: 0 <= i < |s| ==> IsDigit(s[i])
  }

  // ---------------------------------------------------------------------
  // Validation: /^\d{5}$/.test(id)
  // ---------------------------------------------------------------------

  /** Matcher for the tail `\d{n}$` of the pattern, run from the current
      position: `n` more digits, then the end of the input (`$` without
      the `m` flag matches only at the very end). */
  predicate MatchesDigitRun(s: string, n: nat)
    decreases n
  {
    if n == 0 then s == []
    else |s| > 0 && IsDigit(s[0]) && MatchesDigitRun(s[1..], n - 1)
  }

  /** The matcher accepts exactly the strings of `n` digits. */
  lemma {:induction false} MatchesDigitRunIff(s: string, n: nat)
    ensures MatchesDigitRun(s, n) <==> |s| == n && AllDigits(s)
    decreases n
  {
    if n > 0 && |s| > 0 {
      MatchesDigitRunIff(s[1..], n - 1);
      if |s| == n && AllDigits(s) {
        assert AllDigits(s[1..]) by {
          forall i | 0 <= i < |s[1..]| ensures IsDigit(s[1..][i]) {
            assert s[1..][i] == s[i + 1];
          }
        }
      }
      if IsDigit(s[0]) && |s[1..]| == n - 1 && AllDigits(s[1..]) {
        forall i | 0 <= i < |s| ensures IsDigit(s[i]) {
          if i > 0 { assert s[i] == s[1..][i - 1]; }
        }
      }
    }
  }

  /** `validateAccountId`: the anchored pattern `^\d{5}$`, which holds of
      exactly the strings of five ASCII digits. */
  predicate ValidateAccountId(id: string)
    ensures ValidateAccountId(id) <==> |id| == IdLength && AllDigits(id)
  {
    MatchesDigitRunIff(id, IdLength);
    MatchesDigitRun(id, IdLength)
  }

  // ---------------------------------------------------------------------
  // Normalisation: value.replace(/\D/g, '').substring(0, 5)
  // ---------------------------------------------------------------------

  /** `replace(/\D/g, '')`: drop every character that is not an ASCII digit. */
  function StripNonDigits(s: string): (r: string)
    ensures AllDigits(r)
    ensures |r| <= |s|
  {
    if s == [] then []
    else if IsDigit(s[0]) then [s[0]] + StripNonDigits(s[1..])
    else StripNonDigits(s[1..])
  }

  /** `substring(0, n)` on a string: the first `n` characters, or all of
      them when there are fewer. */
  function Substring0(s: string, n: nat): (r: string)
    ensures |r| == if |s| < n then |s| else n
    ensures r <= s
  {
    if |s| <= n then s else s[..n]
  }

  /** The `onChange` handler of the account-id field: the first five digits
      of what was typed, in their original order. */
  function Normalize(raw: string): (r: string)
    ensures AllDigits(r) && |r| <= IdLength
    ensures r <= StripNonDigits(raw)
    ensures |r| == IdLength || r == StripNonDigits(raw)
  {
    Substring0(StripNonDigits(raw), IdLength)
  }

  // ---------------------------------------------------------------------
  // Properties of StripNonDigits
  // ---------------------------------------------------------------------

  /** Filtering commutes with concatenation: digits keep their relative order
      and nothing from one part moves into the other. */
  lemma {:induction false} StripNonDigitsConcat(a: string, b: string)
    ensures StripNonDigits(a + b) == StripNonDigits(a) + StripNonDigits(b)
    decreases |a|
  {
    if a != [] {
      assert (a + b)[1..] == a[1..] + b;
      StripNonDigitsConcat(a[1..], b);
    } else {
      assert a + b == b;
    }
  }

  /** Every digit of the input survives, as often as it occurs, and no other
      character does. */
  lemma {:induction false} StripNonDigitsKeepsDigits(s: string, c: char)
    ensures multiset(StripNonDigits(s))[c] == if IsDigit(c) then multiset(s)[c] else 0
    decreases |s|
  {
    if s == [] {
    } else {
      StripNonDigitsKeepsDigits(s[1..], c);
      assert s == [s[0]] + s[1..];
      assert multiset(s) == multiset([s[0]]) + multiset(s[1..]);
      if IsDigit(s[0]) {
        assert multiset(StripNonDigits(s)) == multiset([s[0]]) + multiset(StripNonDigits(s[1..]));
      }
    }
  }

  /** The filter leaves a string unchanged exactly when it holds only digits. */
  lemma {:induction false} StripNonDigitsFixed(s: string)
    ensures StripNonDigits(s) == s <==> AllDigits(s)
    decreases |s|
  {
    if s != [] {
      StripNonDigitsFixed(s[1..]);
      if AllDigits(s) {
        assert AllDigits(s[1..]) by {
          forall i | 0 <= i < |s[1..]| ensures IsDigit(s[1..][i]) {
            assert s[1..][i] == s[i + 1];
          }
        }
        assert s == [s[0]] + s[1..];
      }
    }
  }

  // ---------------------------------------------------------------------
  // Properties of Normalize
  // ---------------------------------------------------------------------

  /** The strings the field can hold after an edit are exactly the strings
      of at most five digits. */
  lemma NormalizeFixpoints(s: string)
    ensures Normalize(s) == s <==> AllDigits(s) && |s| <= IdLength
  {
    StripNonDigitsFixed(s);
  }

  /** Normalising twice is the same as normalising once. */
  lemma NormalizeIdempotent(raw: string)
    ensures Normalize(Normalize(raw)) == Normalize(raw)
  {
    NormalizeFixpoints(Normalize(raw));
  }

  /** An append law of the normaliser: normalising its own output followed
      by `t` equals normalising the whole text at once; once the five-digit
      cap is reached, further digits are ignored. */
  lemma NormalizeAppend(raw: string, t: string)
    ensures Normalize(Normalize(raw) + t) == Normalize(raw + t)
  {
    var d := StripNonDigits(raw);
    var n := Normalize(raw);
    StripNonDigitsConcat(n, t);
    StripNonDigitsConcat(raw, t);
    StripNonDigitsFixed(n);
    assert StripNonDigits(n + t) == n + StripNonDigits(t);
    assert StripNonDigits(raw + t) == d + StripNonDigits(t);
    if |d| >= IdLength {
      assert (n + StripNonDigits(t))[..IdLength] == n;
      assert (d + StripNonDigits(t))[..IdLength] == d[..IdLength];
    }
  }

  /** The normalised field passes validation exactly when the raw input held
      at least five digits. */
  lemma NormalizeValidIff(raw: string)
    ensures ValidateAccountId(Normalize(raw)) <==> |StripNonDigits(raw)| >= IdLength
  {
  }

  /** Every valid account id can be entered verbatim: normalising it
      returns it unchanged. */
  lemma ValidIdIsNormal(id: string)
    requires ValidateAccountId(id)
    ensures Normalize(id) == id
  {
    NormalizeFixpoints(id);
  }
}
