/** The timestamp written on a new purchase: an ISO-8601 clock reading with
    its first 'T' replaced by a space, cut to its first nineteen characters. */
module DateFormat {
  import opened Types
  import Decimal

  /** Length of "YYYY-MM-DD HH:MM:SS". */
  const DisplayLength := 19

  /** Position of the first occurrence of `c` in `s`, if any. */
  function IndexOf(s: string, c: char): (k: Option<nat>)
    ensures k.None? <==> c !in s
    ensures k.Some? ==> k.value < |s| && s[k.value] == c && c !in s[..k.value]
  {
    if |s| == 0 then None
    else if s[0] == c then Some(0)
    else
      match IndexOf(s[1..], c)
      case None => None
      case Some(j) =>
        assert s[..j + 1] == [s[0]] + s[1..][..j];
        Some(j + 1)
  }

  /** String.prototype.replace with a one-character pattern: only the first
      occurrence is replaced. */
  function ReplaceFirst(s: string, from: char, to: char): (r: string)
    ensures from !in s ==> r == s
    ensures from in s ==> var k := IndexOf(s, from).value; r == s[..k] + [to] + s[k + 1..]
  {
    if |s| == 0 then s
    else if s[0] == from then [to] + s[1..]
    else [s[0]] + ReplaceFirst(s[1..], from, to)
  }

  /** String.prototype.substring(0, n): the whole string when it is shorter. */
  function Prefix(s: string, n: nat): (r: string)
    ensures |r| == if |s| < n then |s| else n
    ensures r <= s
  {
    if |s| < n then s else s[..n]
  }

  /** The date recorded on a purchase, from the clock's ISO string. */
  function FormatDate(iso: string): (r: string)
    ensures |r| == if |iso| < DisplayLength then |iso| else DisplayLength
    ensures 'T' !in iso ==> r <= iso
  {
    Prefix(ReplaceFirst(iso, 'T', ' '), DisplayLength)
  }

  predicate DigitsAt(s: string, lo: nat, hi: nat)
    requires lo <= hi <= |s|
  {
    forall i :: lo <= i < hi ==> Decimal.IsDigit(s[i])
  }

  /** "YYYY-MM-DDTHH:MM:SS.sssZ", the shape Date.prototype.toISOString
      produces for years 0 to 9999. */
  predicate IsIsoTimestamp(s: string) {
    && |s| == 24
    && DigitsAt(s, 0, 4) && s[4] == '-' && DigitsAt(s, 5, 7) && s[7] == '-' && DigitsAt(s, 8, 10)
    && s[10] == 'T'
    && DigitsAt(s, 11, 13) && s[13] == ':' && DigitsAt(s, 14, 16) && s[16] == ':' && DigitsAt(s, 17, 19)
    && s[19] == '.' && DigitsAt(s, 20, 23) && s[23] == 'Z'
  }

  /** "YYYY-MM-DD HH:MM:SS", the shape of every date in the history. */
  predicate IsDisplayDate(s: string) {
    && |s| == DisplayLength
    && DigitsAt(s, 0, 4) && s[4] == '-' && DigitsAt(s, 5, 7) && s[7] == '-' && DigitsAt(s, 8, 10)
    && s[10] == ' '
    && DigitsAt(s, 11, 13) && s[13] == ':' && DigitsAt(s, 14, 16) && s[16] == ':' && DigitsAt(s, 17, 19)
  }

  /** An ISO clock reading becomes a display date that keeps the calendar
      date and the time to the second, dropping milliseconds and the zone. */
  lemma FormatIsoTimestamp(iso: string)
    requires IsIsoTimestamp(iso)
    ensures FormatDate(iso) == iso[..10] + " " + iso[11..19]
    ensures IsDisplayDate(FormatDate(iso))
  {
    assert 'T' !in iso[..10] by {
      forall i | 0 <= i < 10 ensures iso[..10][i] != 'T' {
        assert i == 4 || i == 7 || Decimal.IsDigit(iso[i]);
      }
    }
    assert IndexOf(iso, 'T') == Some(10);
    var r := FormatDate(iso);
    assert r == (iso[..10] + [' '] + iso[11..])[..19];
    assert r == iso[..10] + " " + iso[11..19];
  }
}
