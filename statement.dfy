/** The account statement: one "<type>: $<amount>" line per record, in
    log order, joined by newlines. Beside the renderer sits a reader for
    the same text, and the lemmas show that the statement loses nothing:
    reading it back gives the log it was rendered from. */
module Statement {
  import opened Outcomes
  import opened Ledger

  const Newline: char := '\n'

  function KindName(k: Kind): string {
    match k
    case Deposit => "Deposit"
    case Withdrawal => "Withdrawal"
  }

  /** The text a line starts with, before the amount. */
  function Prefix(k: Kind): string {
    KindName(k) + ": $"
  }

  predicate IsDigit(c: char) {
    '0' <= c <= '9'
  }

  predicate AllDigits(s: string) {
    forall i :: 0 <= i < |s| ==> IsDigit(s[i])
  }

  function DigitChar(d: nat): (c: char)
    requires d < 10
    ensures IsDigit(c) && c as int - '0' as int == d
  {
    ('0' as int + d) as char
  }

  /** The decimal digits of a natural number, most significant first,
      without leading zeros. */
  function NatDigits(n: nat): (s: string)
    ensures |s| > 0 && AllDigits(s)
    ensures |s| > 1 ==> s[0] != '0'
  {
    if n < 10 then [DigitChar(n)] else NatDigits(n / 10) + [DigitChar(n % 10)]
  }

  /** An integer amount as it appears in a statement line: a minus sign
      for a negative amount, then the digits. It reads back as the same
      integer and holds nothing but the sign and digits. */
  function Decimal(n: int): (s: string)
    ensures ParseDecimal(s) == Some(n)
    ensures forall k :: 0 <= k < |s| ==> s[k] == '-' || IsDigit(s[k])
  {
    if n < 0 then
      var s := "-" + NatDigits(-n);
      NatDigitsRoundTrip(-n);
      assert s[1..] == NatDigits(-n);
      s
    else
      NatDigitsRoundTrip(n);
      NatDigits(n)
  }

  /** The value of a string of decimal digits. */
  function DigitsValue(s: string): nat
    requires AllDigits(s)
  {
    if s == [] then 0 else DigitsValue(s[..|s| - 1]) * 10 + (s[|s| - 1] as int - '0' as int)
  }

  /** Reads back what Decimal writes: an optional minus sign and at least
      one digit. */
  function ParseDecimal(s: string): Option<int> {
    if |s| > 1 && s[0] == '-' && AllDigits(s[1..]) then Some(-(DigitsValue(s[1..]) as int))
    else if |s| > 0 && AllDigits(s) then Some(DigitsValue(s))
    else None
  }

  lemma {:induction false} NatDigitsRoundTrip(n: nat)
    ensures DigitsValue(NatDigits(n)) == n
  {
    if n >= 10 {
      var s := NatDigits(n);
      assert s[..|s| - 1] == NatDigits(n / 10);
      NatDigitsRoundTrip(n / 10);
    }
  }

  /** One statement line, as the template literal renders a record. It
      reads back as that record and holds no line separator. */
  function Line(t: Tx): (s: string)
    ensures ParseLine(s) == Some(t)
    ensures Newline !in s
  {
    PrefixedAmountParses(t.kind, t.amount);
    PrefixedAmountHasNoNewline(t.kind, t.amount);
    Prefix(t.kind) + Decimal(t.amount)
  }

  /** The prefix of a kind followed by an amount reads back as that
      record. */
  lemma {:induction false} PrefixedAmountParses(k: Kind, n: int)
    ensures ParseLine(Prefix(k) + Decimal(n)) == Some(Tx(k, n))
  {
    var p, d := Prefix(k), Decimal(n);
    var s := p + d;
    assert s[..|p|] == p;
    assert s[|p|..] == d;
    if k == Withdrawal {
      assert s[0] == 'W';
      assert !StartsWith(s, Prefix(Deposit));
    }
  }

  /** Neither the prefix nor the amount holds a newline. */
  lemma {:induction false} PrefixedAmountHasNoNewline(k: Kind, n: int)
    ensures Newline !in Prefix(k) + Decimal(n)
  {
  }

  predicate StartsWith(s: string, p: string) {
    |p| <= |s| && s[..|p|] == p
  }

  function ParseRecord(k: Kind, s: string): Option<Tx> {
    match ParseDecimal(s)
    case None => None
    case Some(n) => Some(Tx(k, n))
  }

  /** Reads one statement line back into the record it shows. */
  function ParseLine(s: string): Option<Tx> {
    if StartsWith(s, Prefix(Deposit)) then ParseRecord(Deposit, s[|Prefix(Deposit)|..])
    else if StartsWith(s, Prefix(Withdrawal)) then ParseRecord(Withdrawal, s[|Prefix(Withdrawal)|..])
    else None
  }

  /** No line of `lines` holds the separator. */
  predicate NoNewlines(lines: seq<string>) {
    forall k :: 0 <= k < |lines| ==> Newline !in lines[k]
  }

  /** JavaScript's join("\n"): nothing for no lines, otherwise the lines
      with one newline between each two. Splitting at newlines gives back
      any non-empty list of lines that hold no newline themselves. */
  function Join(lines: seq<string>): (s: string)
    ensures |lines| > 0 ==> |s| >= |lines[0]|
    ensures |lines| > 0 && NoNewlines(lines) ==> Split(s) == lines
    decreases |lines|
  {
    if |lines| == 0 then ""
    else if |lines| == 1 then lines[0]
    else
      var head, rest := lines[0], Join(lines[1..]);
      var s := head + [Newline] + rest;
      assert s[..|head|] == head && s[|head| + 1..] == rest;
      assert NoNewlines(lines) ==> NoNewlines(lines[1..]) && IndexOf(s, Newline) == |head| by {
        if NoNewlines(lines) {
          assert Newline !in lines[0];
          assert s[|head|] == Newline;
          forall k | 0 <= k < |head| ensures s[k] != Newline {
            assert s[k] == head[k];
          }
        }
      }
      s
  }

  /** The position of the first occurrence of c in s, or |s| if none. */
  function IndexOf(s: string, c: char): (i: nat)
    ensures i <= |s|
    ensures i < |s| ==> s[i] == c
    ensures forall k :: 0 <= k < i ==> s[k] != c
  {
    if s == [] then 0
    else if s[0] == c then 0
    else 1 + IndexOf(s[1..], c)
  }

  /** The pieces of s between newlines: the partner of Join. */
  function Split(s: string): (r: seq<string>)
    ensures |r| > 0
    decreases |s|
  {
    var i := IndexOf(s, Newline);
    if i == |s| then [s] else [s[..i]] + Split(s[i + 1..])
  }

  /** The lines of a statement, one per record, in log order. */
  function Lines(log: seq<Tx>): (r: seq<string>)
    ensures |r| == |log|
    ensures forall k :: 0 <= k < |log| ==> r[k] == Line(log[k])
  {
    seq(|log|, k requires 0 <= k < |log| => Line(log[k]))
  }

  /** getStatement of an account whose log is `log`. The text is empty
      exactly when there are no records, and it loses nothing: reading it
      back gives the whole log, in order. */
  function Render(log: seq<Tx>): (s: string)
    ensures s == "" <==> log == []
    ensures ParseStatement(s) == Some(log)
  {
    var lines := Lines(log);
    ParseLinesOfLines(log);
    assert log != [] ==> |lines[0]| > 0 by {
      if log != [] {
        assert |Prefix(log[0].kind)| > 0;
      }
    }
    Join(lines)
  }

  function ParseLines(lines: seq<string>): Option<seq<Tx>>
    decreases |lines|
  {
    if lines == [] then Some([])
    else match (ParseLine(lines[0]), ParseLines(lines[1..]))
      case (Some(t), Some(rest)) => Some([t] + rest)
      case _ => None
  }

  /** Reads a whole statement back into a log. */
  function ParseStatement(s: string): Option<seq<Tx>> {
    if s == "" then Some([]) else ParseLines(Split(s))
  }

  lemma {:induction false} ParseLinesOfLines(log: seq<Tx>)
    ensures ParseLines(Lines(log)) == Some(log)
    decreases |log|
  {
    if log != [] {
      assert Lines(log)[1..] == Lines(log[1..]);
      ParseLinesOfLines(log[1..]);
      assert [log[0]] + log[1..] == log;
    }
  }

  lemma {:induction false} ExampleAmounts()
    ensures Decimal(500) == "500" && Decimal(200) == "200"
  {
  }

  lemma {:induction false} ExampleLines()
    ensures Line(Tx(Deposit, 500)) == "Deposit: $500"
    ensures Line(Tx(Withdrawal, 200)) == "Withdrawal: $200"
  {
    ExampleAmounts();
  }

  /** A deposit of 500 followed by a withdrawal of 200 renders as two
      lines. */
  lemma {:induction false} StatementOfDepositThenWithdrawal()
    ensures Render([Tx(Deposit, 500), Tx(Withdrawal, 200)]) == "Deposit: $500" + [Newline] + "Withdrawal: $200"
  {
    var log := [Tx(Deposit, 500), Tx(Withdrawal, 200)];
    ExampleLines();
    var lines := Lines(log);
    assert lines == ["Deposit: $500", "Withdrawal: $200"];
    assert Join(lines[1..]) == "Withdrawal: $200";
    assert Join(lines) == "Deposit: $500" + [Newline] + "Withdrawal: $200";
  }
}
