/**
 * `Channel::eventsToString(fd, ev)` (src/net/Channel.cpp), the debugging
 * rendering of a mask: the descriptor in decimal, ": ", then one token with a
 * trailing space for each of IN, PRI, OUT, HUP, RDHUP and ERR that is set, in
 * that order.
 *
 * Its partner is a parser: the rendering determines the descriptor and the six
 * displayed bits, so the parser recovers exactly those.
 */
module EventsText {

  import opened EpollEvents
  import opened Wrappers

  predicate IsDigit(c: char) { '0' <= c <= '9' }

  predicate AllDigits(s: string) { forall i | 0 <= i < |s| :: IsDigit(s[i]) }

  function DigitChar(d: nat): (c: char)
    requires d < 10
    ensures IsDigit(c)
  {
    ('0' as int + d) as char
  }

  function DigitValue(c: char): (d: nat)
    requires IsDigit(c)
    ensures d < 10
  {
    c as int - '0' as int
  }

  /** The decimal digits of `n`, most significant first, without leading zeros. */
  function NatToDecimal(n: nat): (s: string)
    ensures |s| >= 1 && AllDigits(s)
    decreases n
  {
    if n < 10 then [DigitChar(n)] else NatToDecimal(n / 10) + [DigitChar(n % 10)]
  }

  /** `std::to_string` of an int: a minus sign for negative values, then the digits. */
  function IntToDecimal(n: int): (s: string)
    ensures |s| >= 1 && ':' !in s && ' ' !in s
  {
    if n < 0 then "-" + NatToDecimal(-n) else NatToDecimal(n)
  }

  /** The value of a string of decimal digits. */
  function DecimalValue(s: string): nat
    requires AllDigits(s)
  {
    if s == [] then 0 else DecimalValue(s[..|s| - 1]) * 10 + DigitValue(s[|s| - 1])
  }

  function ParseInt(s: string): Option<int>
  {
    if |s| >= 2 && s[0] == '-' && AllDigits(s[1..]) then Some(0 - DecimalValue(s[1..]))
    else if |s| >= 1 && AllDigits(s) then Some(DecimalValue(s))
    else None
  }

  lemma {:induction false} DecimalRoundTrip(n: nat)
    ensures DecimalValue(NatToDecimal(n)) == n
    decreases n
  {
    if n >= 10 {
      DecimalRoundTrip(n / 10);
      var s := NatToDecimal(n);
      assert s[..|s| - 1] == NatToDecimal(n / 10);
    }
  }

  lemma IntRoundTrip(n: int)
    ensures ParseInt(IntToDecimal(n)) == Some(n)
  {
    if n < 0 {
      var digits := NatToDecimal(-n);
      DecimalRoundTrip(-n);
      assert ("-" + digits)[1..] == digits;
    } else {
      var digits := NatToDecimal(n);
      DecimalRoundTrip(n);
      assert IsDigit(digits[0]);
    }
  }

  /** Which of the six displayed bits of `ev` are set, in display order. */
  function ShownBits(ev: Mask): (b: seq<bool>)
    ensures |b| == 6
  {
    [ev & EpollIn != 0, ev & EpollPri != 0, ev & EpollOut != 0,
     ev & EpollHup != 0, ev & EpollRdHup != 0, ev & EpollErr != 0]
  }

  const ShownEvents: Mask := EpollIn | EpollPri | EpollOut | EpollHup | EpollRdHup | EpollErr

  /** The mask whose displayed bits are `b` and whose other bits are clear. */
  function FromBits(b: seq<bool>): Mask
    requires |b| == 6
  {
    (if b[0] then EpollIn else NoneEvent) | (if b[1] then EpollPri else NoneEvent)
    | (if b[2] then EpollOut else NoneEvent) | (if b[3] then EpollHup else NoneEvent)
    | (if b[4] then EpollRdHup else NoneEvent) | (if b[5] then EpollErr else NoneEvent)
  }

  /** The displayed bits of a mask are exactly its bits within ShownEvents. */
  lemma FromShownBits(ev: Mask)
    ensures FromBits(ShownBits(ev)) == ev & ShownEvents
  {
  }

  /** The display position of the token that starts with `c`. */
  function InitialPosition(c: char): int
  {
    if c == 'I' then 0
    else if c == 'P' then 1
    else if c == 'O' then 2
    else if c == 'H' then 3
    else if c == 'R' then 4
    else if c == 'E' then 5
    else -1
  }

  /** The six tokens; each starts with a different letter. */
  function Name(i: nat): (s: string)
    requires i < 6
    ensures |s| >= 1 && InitialPosition(s[0]) == i
  {
    if i == 0 then "IN"
    else if i == 1 then "PRI"
    else if i == 2 then "OUT"
    else if i == 3 then "HUP"
    else if i == 4 then "RDHUP"
    else "ERR"
  }

  /** The tokens for the set entries of `b` from position `i` on. */
  function Tokens(b: seq<bool>, i: nat): string
    requires |b| == 6 && i <= 6
    decreases 6 - i
  {
    if i == 6 then "" else (if b[i] then Name(i) + " " else "") + Tokens(b, i + 1)
  }

  /**
   * The rendering: the descriptor, ": ", then for each displayed bit in order
   * its token and a space when that bit is set.
   */
  function EventsToString(fd: int, ev: Mask): string
  {
    IntToDecimal(fd) + ": " + Tokens(ShownBits(ev), 0)
  }

  /** Reads back tokens in display order, each at most once, from position `i` on. */
  function ParseTokens(s: string, i: nat): (r: Option<seq<bool>>)
    requires i <= 6
    ensures r.Some? ==> |r.value| == 6 - i
    decreases 6 - i
  {
    if i == 6 then (if s == [] then Some([]) else None)
    else
      var token := Name(i) + " ";
      var present := token <= s;
      match ParseTokens(if present then s[|token|..] else s, i + 1)
      case Some(m) => Some([present] + m)
      case None => None
  }

  /** The position of the first `c` in `s`. */
  function IndexOf(s: string, c: char): (r: Option<nat>)
    ensures r.Some? ==> r.value < |s| && s[r.value] == c && c !in s[..r.value]
    ensures r.None? ==> c !in s
  {
    if s == [] then None
    else if s[0] == c then Some(0)
    else match IndexOf(s[1..], c)
      case Some(k) => Some(k + 1)
      case None => None
  }

  /** The inverse of EventsToString on the descriptor and the displayed bits. */
  function ParseEventsString(s: string): Option<(int, Mask)>
  {
    match IndexOf(s, ':')
    case None => None
    case Some(k) =>
      if k + 1 < |s| && s[k + 1] == ' ' then
        match (ParseInt(s[..k]), ParseTokens(s[k + 2..], 0))
        case (Some(fd), Some(bits)) => Some((fd, FromBits(bits)))
        case _ => None
      else None
  }

  lemma {:induction false} TokensStartWithLaterInitial(b: seq<bool>, i: nat)
    requires |b| == 6 && i <= 6
    ensures Tokens(b, i) != [] ==> i < 6 && InitialPosition(Tokens(b, i)[0]) >= i
    decreases 6 - i
  {
    if i < 6 && !b[i] {
      TokensStartWithLaterInitial(b, i + 1);
    }
  }

  /** A token followed by anything starts with that token, and what follows it is the rest. */
  lemma PrefixThenRest(token: string, rest: string)
    ensures token <= token + rest
    ensures (token + rest)[|token|..] == rest
  {
  }

  /** A token is not a prefix of a string that is empty or starts with another letter. */
  lemma NotPrefix(token: string, s: string)
    requires token != []
    requires s != [] ==> s[0] != token[0]
    ensures !(token <= s)
  {
  }

  /** A set bit: its token is read, then the later ones. */
  lemma RoundTripSet(b: seq<bool>, i: nat)
    requires |b| == 6 && i < 6 && b[i]
    requires ParseTokens(Tokens(b, i + 1), i + 1) == Some(b[i + 1..])
    ensures ParseTokens(Tokens(b, i), i) == Some([true] + b[i + 1..])
  {
    var token := Name(i) + " ";
    var rest := Tokens(b, i + 1);
    assert Tokens(b, i) == token + rest;
    PrefixThenRest(token, rest);
  }

  /** A clear bit: the later tokens do not start with its token. */
  lemma RoundTripUnset(b: seq<bool>, i: nat)
    requires |b| == 6 && i < 6 && !b[i]
    requires ParseTokens(Tokens(b, i + 1), i + 1) == Some(b[i + 1..])
    ensures ParseTokens(Tokens(b, i), i) == Some([false] + b[i + 1..])
  {
    var token := Name(i) + " ";
    var rest := Tokens(b, i + 1);
    assert Tokens(b, i) == rest;
    TokensStartWithLaterInitial(b, i + 1);
    assert rest != [] ==> rest[0] != token[0];
    NotPrefix(token, rest);
  }

  /** Parsing the tokens of `b` from position `i` gives back `b` from `i` on. */
  lemma {:induction false} TokensRoundTrip(b: seq<bool>, i: nat)
    requires |b| == 6 && i <= 6
    ensures ParseTokens(Tokens(b, i), i) == Some(b[i..])
    decreases 6 - i
  {
    if i < 6 {
      TokensRoundTrip(b, i + 1);
      assert b[i..] == [b[i]] + b[i + 1..];
      if b[i] {
        RoundTripSet(b, i);
      } else {
        RoundTripUnset(b, i);
      }
    } else {
      assert b[i..] == [];
    }
  }

  /** The first occurrence of a character is where IndexOf finds it. */
  lemma IndexOfFirst(s: string, c: char, k: nat)
    requires k < |s| && s[k] == c && c !in s[..k]
    ensures IndexOf(s, c) == Some(k)
  {
    assert s[..k + 1][k] == c;
  }

  /** How the parser takes apart a descriptor, the separator and a token list. */
  lemma SplitAtSeparator(prefix: string, body: string)
    requires ':' !in prefix
    ensures ParseEventsString(prefix + ": " + body)
      == match (ParseInt(prefix), ParseTokens(body, 0))
         case (Some(fd), Some(bits)) => Some((fd, FromBits(bits)))
         case _ => None
  {
    var s := prefix + ": " + body;
    assert s[..|prefix|] == prefix;
    IndexOfFirst(s, ':', |prefix|);
    assert s[|prefix| + 2..] == body;
  }

  /** The rendering determines the descriptor and exactly the displayed bits of the mask. */
  lemma EventsToStringRoundTrip(fd: int, ev: Mask)
    ensures ParseEventsString(EventsToString(fd, ev)) == Some((fd, ev & ShownEvents))
  {
    SplitAtSeparator(IntToDecimal(fd), Tokens(ShownBits(ev), 0));
    IntRoundTrip(fd);
    TokensRoundTrip(ShownBits(ev), 0);
    FromShownBits(ev);
  }
}
