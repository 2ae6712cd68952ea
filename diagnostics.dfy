/** The diagnostic accessors `SetAssociations` and `getAssociations`. */
module Diagnostics {
  import opened Particles

  /**
   * `SetAssociations`: a copy of `p` whose association list and sensed
   * coordinates are replaced; `p` itself is a value and stays as it was.
   */
  function SetAssociations(p: Particle, associations: seq<int>, senseX: seq<real>, senseY: seq<real>)
    : (r: Particle)
    ensures r.associations == associations && r.senseX == senseX && r.senseY == senseY
    ensures r.id == p.id && r.x == p.x && r.y == p.y && r.theta == p.theta && r.weight == p.weight
  {
    p.(associations := associations, senseX := senseX, senseY := senseY)
  }

  /** Setting twice keeps only the second lists: the first ones are cleared. */
  lemma SetAssociationsOverwrites(p: Particle, a1: seq<int>, x1: seq<real>, y1: seq<real>,
                                  a2: seq<int>, x2: seq<real>, y2: seq<real>)
    ensures SetAssociations(SetAssociations(p, a1, x1, y1), a2, x2, y2) == SetAssociations(p, a2, x2, y2)
  {
  }

  predicate IsDigit(c: char)
  {
    '0' <= c <= '9'
  }

  function DigitChar(d: nat): (c: char)
    requires d < 10
    ensures IsDigit(c)
  {
    ('0' as int + d) as char
  }

  /** The decimal digits of `n`, most significant first, without leading zeros. */
  function NatDigits(n: nat): (s: string)
    ensures |s| >= 1
    ensures forall i :: 0 <= i < |s| ==> IsDigit(s[i])
    decreases n
  {
    if n < 10 then [DigitChar(n)] else NatDigits(n / 10) + [DigitChar(n % 10)]
  }

  /** How an `int` is written to a stream: an optional minus sign, then its digits. */
  function DecimalString(n: int): (s: string)
    ensures |s| >= 1 && ' ' !in s
  {
    if n < 0 then "-" + NatDigits(-n) else NatDigits(n)
  }

  /** `ids` written to a stream with " " after each one, as `copy` onto an `ostream_iterator` does. */
  function Streamed(ids: seq<int>): (s: string)
    ensures s == "" <==> ids == []
    ensures s != "" ==> s[|s| - 1] == ' '
  {
    if |ids| == 0 then "" else DecimalString(ids[0]) + " " + Streamed(ids[1..])
  }

  /**
   * `s.substr(0, s.length() - 1)`: drops the last character. On the empty
   * string the unsigned length wraps around to the largest size, which
   * `substr` clamps to the length, so the empty string is returned.
   */
  function DropLast(s: string): (r: string)
    ensures s == "" ==> r == ""
    ensures s != "" ==> r + [s[|s| - 1]] == s
  {
    if |s| == 0 then s else s[..|s| - 1]
  }

  /** `getAssociations`: the association ids joined by single spaces. */
  function GetAssociations(p: Particle): (s: string)
    ensures s == "" <==> p.associations == []
    ensures s != "" ==> s[0] != ' ' && s[|s| - 1] != ' '
  {
    JoinMatchesStream(p.associations);
    DropLast(Streamed(p.associations))
  }

  /** Reference definition: the decimal forms separated by single spaces. */
  function Join(ids: seq<int>): string
  {
    if |ids| == 0 then ""
    else if |ids| == 1 then DecimalString(ids[0])
    else DecimalString(ids[0]) + " " + Join(ids[1..])
  }

  /** The stream holds the joined ids followed by one trailing separator. */
  lemma {:induction false} JoinMatchesStream(ids: seq<int>)
    ensures ids != [] ==> Streamed(ids) == Join(ids) + " "
    ensures ids != [] ==> |Join(ids)| >= 1 && Join(ids)[0] != ' ' && Join(ids)[|Join(ids)| - 1] != ' '
    ensures ids == [] ==> Streamed(ids) == ""
  {
    if |ids| > 1 {
      JoinMatchesStream(ids[1..]);
      var first := DecimalString(ids[0]);
      var rest := Join(ids[1..]);
      assert Join(ids) == first + " " + rest;
      assert Join(ids)[|Join(ids)| - 1] == rest[|rest| - 1];
      assert first[0] != ' ';
    } else if |ids| == 1 {
      var first := DecimalString(ids[0]);
      assert first[0] != ' ' && first[|first| - 1] != ' ';
    }
  }

  /** `getAssociations` returns exactly the reference join. */
  lemma GetAssociationsIsJoin(p: Particle)
    ensures GetAssociations(p) == Join(p.associations)
  {
    JoinMatchesStream(p.associations);
    if p.associations != [] {
      var j := Join(p.associations);
      assert (j + " ")[..|j|] == j;
    }
  }

  /** The space-separated fields of `s`; a string without spaces is one field. */
  function Fields(s: string): (r: seq<string>)
    ensures |r| >= 1
    decreases |s|
  {
    if |s| == 0 then [""]
    else
      var rest := Fields(s[1..]);
      if s[0] == ' ' then [""] + rest else [[s[0]] + rest[0]] + rest[1..]
  }

  lemma {:induction false} FieldsOfWord(t: string)
    requires ' ' !in t
    ensures Fields(t) == [t]
    decreases |t|
  {
    if |t| > 0 {
      FieldsOfWord(t[1..]);
      assert [t[0]] + t[1..] == t;
    }
  }

  lemma {:induction false} FieldsSplitAtSpace(t: string, u: string)
    requires ' ' !in t
    ensures Fields(t + " " + u) == [t] + Fields(u)
    decreases |t|
  {
    var s := t + " " + u;
    if |t| == 0 {
      assert s[1..] == u;
    } else {
      assert s[1..] == t[1..] + " " + u;
      FieldsSplitAtSpace(t[1..], u);
      assert [t[0]] + t[1..] == t;
    }
  }

  /** Splitting the joined string on spaces gives back each decimal form. */
  lemma {:induction false} FieldsOfJoin(ids: seq<int>)
    requires ids != []
    ensures Fields(Join(ids)) == seq(|ids|, k requires 0 <= k < |ids| => DecimalString(ids[k]))
    decreases |ids|
  {
    if |ids| == 1 {
      FieldsOfWord(DecimalString(ids[0]));
    } else {
      FieldsSplitAtSpace(DecimalString(ids[0]), Join(ids[1..]));
      FieldsOfJoin(ids[1..]);
    }
  }

  function DigitValue(c: char): int
  {
    c as int - '0' as int
  }

  /** The value of a string of decimal digits. */
  function ParseNat(s: string): int
    decreases |s|
  {
    if |s| == 0 then 0 else ParseNat(s[..|s| - 1]) * 10 + DigitValue(s[|s| - 1])
  }

  /** The value of a decimal integer with an optional minus sign. */
  function ParseDecimal(s: string): int
  {
    if |s| > 0 && s[0] == '-' then -ParseNat(s[1..]) else ParseNat(s)
  }

  lemma {:induction false} ParseNatDigits(n: nat)
    ensures ParseNat(NatDigits(n)) == n
    decreases n
  {
    if n >= 10 {
      ParseNatDigits(n / 10);
      var s := NatDigits(n);
      assert s[..|s| - 1] == NatDigits(n / 10);
    }
  }

  lemma DecimalRoundTrip(n: int)
    ensures ParseDecimal(DecimalString(n)) == n
  {
    if n < 0 {
      ParseNatDigits(-n);
      assert DecimalString(n)[1..] == NatDigits(-n);
    } else {
      ParseNatDigits(n);
      assert IsDigit(NatDigits(n)[0]);
    }
  }

  /** Reads the ids back from a string written by `getAssociations`. */
  function ParseAssociations(s: string): seq<int>
  {
    if s == "" then []
    else
      var fields := Fields(s);
      seq(|fields|, k requires 0 <= k < |fields| => ParseDecimal(fields[k]))
  }

  /** Reading back what `getAssociations` wrote recovers the association list. */
  lemma AssociationsRoundTrip(p: Particle)
    ensures ParseAssociations(GetAssociations(p)) == p.associations
  {
    GetAssociationsIsJoin(p);
    var ids := p.associations;
    if ids != [] {
      FieldsOfJoin(ids);
      forall k | 0 <= k < |ids| ensures ParseDecimal(DecimalString(ids[k])) == ids[k] {
        DecimalRoundTrip(ids[k]);
      }
    }
  }
}
