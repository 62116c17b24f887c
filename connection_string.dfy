/**
 * Rewriting of the PostgreSQL connection string before the pool is opened:
 * the pgx driver is switched to the simple query protocol unless the
 * caller already chose an execution mode.
 */
module ConnectionString {

  /** The parameter whose presence means the caller chose a mode. */
  const MODE_KEY: string := "default_query_exec_mode"

  /** The parameter setting that is added when no mode was chosen. */
  const SIMPLE_PROTOCOL: string := "default_query_exec_mode=simple_protocol"

  /** `sub` occurs in `s` as a contiguous run of characters (Go's strings.Contains). */
  predicate Contains(s: string, sub: string)
    decreases |s|
  {
    (|sub| <= |s| && s[..|sub|] == sub) || (|s| > 0 && Contains(s[1..], sub))
  }

  /** Whatever occurs in `s` still occurs once text is put in front of it. */
  lemma {:induction false} ContainsAfterPrefix(prefix: string, s: string, sub: string)
    requires Contains(s, sub)
    ensures Contains(prefix + s, sub)
    decreases |prefix|
  {
    if |prefix| > 0 {
      ContainsAfterPrefix(prefix[1..], s, sub);
      assert (prefix + s)[1..] == prefix[1..] + s;
    } else {
      assert prefix + s == s;
    }
  }

  /** The appended setting carries the mode key, whatever precedes it. */
  lemma SettingCarriesKey(prefix: string)
    ensures Contains(prefix + SIMPLE_PROTOCOL, MODE_KEY)
  {
    assert SIMPLE_PROTOCOL[..|MODE_KEY|] == MODE_KEY;
    ContainsAfterPrefix(prefix, SIMPLE_PROTOCOL, MODE_KEY);
  }

  /**
   * The connection string handed to the driver: unchanged when it already
   * names an execution mode, otherwise extended by the simple-protocol
   * setting, joined with `&` when a query part (`?`) exists and with `?`
   * when it does not.
   */
  function Normalize(s: string): (r: string)
    ensures s <= r
    ensures Contains(r, MODE_KEY)
    ensures r == s <==> Contains(s, MODE_KEY)
    ensures r != s ==> r[|s|..] == (if '?' in s then "&" else "?") + SIMPLE_PROTOCOL
  {
    if Contains(s, MODE_KEY) then s
    else
      var joined := s + (if '?' in s then "&" else "?");
      SettingCarriesKey(joined);
      joined + SIMPLE_PROTOCOL
  }

  /** Normalising an already normalised string changes nothing. */
  lemma NormalizeIdempotent(s: string)
    ensures Normalize(Normalize(s)) == Normalize(s)
  {
  }

  /**
   * The case-split form of `Normalize`'s contract: the driver sees exactly
   * one of the three strings the rewriting can produce.
   */
  lemma NormalizeCases(s: string)
    ensures Contains(s, MODE_KEY) ==> Normalize(s) == s
    ensures !Contains(s, MODE_KEY) && '?' in s ==> Normalize(s) == s + "&" + SIMPLE_PROTOCOL
    ensures !Contains(s, MODE_KEY) && '?' !in s ==> Normalize(s) == s + "?" + SIMPLE_PROTOCOL
  {
  }
}
