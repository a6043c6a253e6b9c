/** The `from` / `till` request parameters of src/App.js:51-52:
    `toISOString().slice(0, -5) + 'Z'`, which drops the milliseconds. */
module QueryTime {

  /** `s.slice(0, -5) + 'Z'`: everything but the last five characters (none
      when there are fewer than five), then a `Z`. */
  function TrimMillis(iso: string): (r: string)
    ensures |iso| >= 5 ==> |r| == |iso| - 4
    ensures |iso| < 5 ==> r == "Z"
    ensures r[|r| - 1] == 'Z'
    ensures forall i :: 0 <= i < |r| - 1 ==> r[i] == iso[i]
  {
    var keep := if |iso| >= 5 then |iso| - 5 else 0;
    iso[..keep] + "Z"
  }

  predicate IsDigit(c: char) {
    '0' <= c <= '9'
  }

  /** `YYYY-MM-DDTHH:mm:ss`, the part both formats share. */
  predicate IsDateTime(s: string)
    requires |s| >= 19
  {
    && s[4] == '-' && s[7] == '-' && s[10] == 'T' && s[13] == ':' && s[16] == ':'
    && forall i :: 0 <= i < 19 && i != 4 && i != 7 && i != 10 && i != 13 && i != 16 ==> IsDigit(s[i])
  }

  /** `YYYY-MM-DDTHH:mm:ss.sssZ`, what `toISOString` gives for a four-digit
      year. */
  predicate IsIsoMillis(s: string) {
    && |s| == 24 && IsDateTime(s)
    && s[19] == '.' && IsDigit(s[20]) && IsDigit(s[21]) && IsDigit(s[22]) && s[23] == 'Z'
  }

  /** `YYYY-MM-DDTHH:mm:ssZ`, whole seconds in UTC. */
  predicate IsIsoSeconds(s: string) {
    |s| == 20 && IsDateTime(s) && s[19] == 'Z'
  }

  /** A 24-character string keeps its first 19 characters. */
  lemma TrimKeepsNineteen(iso: string)
    requires |iso| == 24
    ensures TrimMillis(iso) == iso[..19] + "Z"
  {
  }

  /** Trimming a millisecond timestamp gives the whole-second timestamp with
      the same date, hour, minute and second. */
  lemma TrimToSeconds(iso: string)
    requires IsIsoMillis(iso)
    ensures IsIsoSeconds(TrimMillis(iso))
    ensures TrimMillis(iso)[..19] == iso[..19]
  {
  }

  /** Trimming undoes appending any milliseconds to a whole-second
      timestamp. */
  lemma TrimUndoesMillis(t: string, ms: string)
    requires IsIsoSeconds(t)
    requires |ms| == 3 && IsDigit(ms[0]) && IsDigit(ms[1]) && IsDigit(ms[2])
    ensures IsIsoMillis(t[..19] + "." + ms + "Z")
    ensures TrimMillis(t[..19] + "." + ms + "Z") == t
  {
  }
}
