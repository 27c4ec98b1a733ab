/** Trade intents, and the validator that accepts each id at most once. */
module Signals {
  import opened Enums
  import opened Configuration
  import Orders

  datatype Direction = Long | Short | Flat

  /** A proposed target position. */
  datatype Intent = Intent(intentId: string, strategy: string, symbol: string, direction: Direction,
                           requestedPosition: int, createdAt: int)
  {
    /** The direction and the signed target agree; an intent that fails this cannot be constructed. */
    predicate Consistent() {
      match direction
      case Long => requestedPosition > 0
      case Short => requestedPosition < 0
      case Flat => requestedPosition == 0
    }

    function IdempotencyKey(conId: int): Orders.Key {
      Orders.Key(intentId, strategy, conId, requestedPosition)
    }
  }

  function UpperChar(c: char): char { if 'a' <= c <= 'z' then c - 'a' + 'A' else c }

  function LowerChar(c: char): char { if 'A' <= c <= 'Z' then c - 'A' + 'a' else c }

  function Upper(s: string): string { seq(|s|, i requires 0 <= i < |s| => UpperChar(s[i])) }

  function Lower(s: string): string { seq(|s|, i requires 0 <= i < |s| => LowerChar(s[i])) }

  const SMALL := "abcdefghijklmnopqrstuvwxyz"
  const LARGE := "ABCDEFGHIJKLMNOPQRSTUVWXYZ"

  /** Letters are folded to the one form or the other, and every other character stays. */
  lemma CaseIsFolded(s: string)
    ensures |Upper(s)| == |s| == |Lower(s)|
    ensures forall i, k :: 0 <= i < |s| && 0 <= k < 26 && (s[i] == SMALL[k] || s[i] == LARGE[k]) ==>
              Upper(s)[i] == LARGE[k] && Lower(s)[i] == SMALL[k]
    ensures forall i :: 0 <= i < |s| && s[i] !in SMALL && s[i] !in LARGE ==> Upper(s)[i] == s[i] == Lower(s)[i]
  {
    assert forall k :: 0 <= k < 26 ==> SMALL[k] == 'a' + k as char && LARGE[k] == 'A' + k as char;
    forall i | 0 <= i < |s| ensures (s[i] in SMALL <==> 'a' <= s[i] <= 'z') && (s[i] in LARGE <==> 'A' <= s[i] <= 'Z') {
      SmallLetters(s[i]);
      LargeLetters(s[i]);
    }
  }

  lemma SmallLetters(c: char)
    ensures c in SMALL <==> 'a' <= c <= 'z'
  {
    assert forall k :: 0 <= k < 26 ==> SMALL[k] == 'a' + k as char;
    if 'a' <= c <= 'z' { assert SMALL[(c - 'a') as int] == c; }
  }

  lemma LargeLetters(c: char)
    ensures c in LARGE <==> 'A' <= c <= 'Z'
  {
    assert forall k :: 0 <= k < 26 ==> LARGE[k] == 'A' + k as char;
    if 'A' <= c <= 'Z' { assert LARGE[(c - 'A') as int] == c; }
  }

  function LowerAll(names: set<string>): set<string> { set n | n in names :: Lower(n) }

  const SUPPORTED_SYMBOLS: set<string> := {"MSL", "SOL"}
  const MAX_SIGNAL_AGE := 60_000_000
  const POSITION_SANITY_LIMIT := 10_000
  const OPERATOR_STRATEGY := "operator"

  /** `symbol` is the configured one in upper case. */
  function SymbolReasons(symbol: string, i: Intent): seq<Reason> {
    if Upper(i.symbol) !in SUPPORTED_SYMBOLS then [SignalSymbolNotSupported]
    else When(Upper(i.symbol) != symbol, SignalSymbolNotConfiguredInstrument)
  }

  function AgeReasons(i: Intent, now: int): seq<Reason> {
    if now < i.createdAt then [SignalTimestampInFuture]
    else When(now - i.createdAt > MAX_SIGNAL_AGE, SignalTimestampStale)
  }

  predicate Sane(position: int) { -POSITION_SANITY_LIMIT <= position <= POSITION_SANITY_LIMIT }

  /** Why an intent is not acceptable at `now`, given the ids already accepted; strategy names are in lower case. */
  function SignalReasons(symbol: string, known: set<string>, seen: set<string>, i: Intent, now: int): seq<Reason> {
    SymbolReasons(symbol, i)
    + When(Lower(i.strategy) !in known, SignalFromUnknownStrategy)
    + AgeReasons(i, now)
    + When(!Sane(i.requestedPosition), SignalRequestedPositionUnreasonable)
    + When(i.intentId in seen, DuplicateSignal)
  }

  /** What each of the validator's reasons means; the others it never gives. */
  ghost predicate Wrong(symbol: string, known: set<string>, seen: set<string>, i: Intent, now: int, r: Reason) {
    match r
    case SignalSymbolNotSupported => Upper(i.symbol) != "MSL" && Upper(i.symbol) != "SOL"
    case SignalSymbolNotConfiguredInstrument => (Upper(i.symbol) == "MSL" || Upper(i.symbol) == "SOL") && Upper(i.symbol) != symbol
    case SignalFromUnknownStrategy => Lower(i.strategy) !in known
    case SignalTimestampInFuture => now < i.createdAt
    case SignalTimestampStale => now - i.createdAt > 60 * 1_000_000
    case SignalRequestedPositionUnreasonable => i.requestedPosition > 10_000 || i.requestedPosition < -10_000
    case DuplicateSignal => i.intentId in seen
    case _ => false
  }

  lemma SymbolAndAge(symbol: string, i: Intent, now: int, r: Reason)
    ensures r in SymbolReasons(symbol, i) <==>
              || (r.SignalSymbolNotSupported? && Upper(i.symbol) != "MSL" && Upper(i.symbol) != "SOL")
              || (r.SignalSymbolNotConfiguredInstrument? && (Upper(i.symbol) == "MSL" || Upper(i.symbol) == "SOL") && Upper(i.symbol) != symbol)
    ensures r in AgeReasons(i, now) <==>
              (r.SignalTimestampInFuture? && now < i.createdAt) || (r.SignalTimestampStale? && now - i.createdAt > 60 * 1_000_000)
    ensures Sane(i.requestedPosition) <==> -10_000 <= i.requestedPosition <= 10_000
  {
    hide Upper;
  }

  /** A refusal lists each thing that is wrong with the intent, and nothing else. */
  lemma ValidatorListsExactly(symbol: string, known: set<string>, seen: set<string>, i: Intent, now: int, r: Reason)
    ensures r in SignalReasons(symbol, known, seen, i, now) <==> Wrong(symbol, known, seen, i, now, r)
  {
    hide Upper, Lower, SymbolReasons, AgeReasons, Sane;
    SymbolAndAge(symbol, i, now, r);
    assert r in SignalReasons(symbol, known, seen, i, now) <==>
      || r in SymbolReasons(symbol, i) || (r == SignalFromUnknownStrategy && Lower(i.strategy) !in known) || r in AgeReasons(i, now)
      || (r == SignalRequestedPositionUnreasonable && !Sane(i.requestedPosition)) || (r == DuplicateSignal && i.intentId in seen);
  }

  class SignalValidator {
    const symbol: string
    const known: set<string>
    var seen: set<string>

    constructor (symbol: string, known: set<string>)
      ensures this.symbol == Upper(symbol) && this.known == LowerAll(known) && seen == {}
    {
      this.symbol, this.known, seen := Upper(symbol), LowerAll(known), {};
    }

    /** Loads the ids of intents already processed. */
    method SeedSeen(ids: set<string>)
      modifies this
      ensures seen == old(seen) + ids
    {
      seen := seen + ids;
    }

    /**
     * Accepts an intent exactly when it is for the configured instrument, from a known strategy (in any case), at
     * most a minute old, within the sanity limit and not seen before; an accepted id is never
     * accepted again.
     */
    method Validate(i: Intent, now: int) returns (reasons: seq<Reason>)
      modifies this
      ensures reasons == SignalReasons(symbol, known, old(seen), i, now)
      ensures reasons == [] <==>
                && (Upper(i.symbol) == "MSL" || Upper(i.symbol) == "SOL") && Upper(i.symbol) == symbol && Lower(i.strategy) in known
                && 0 <= now - i.createdAt <= 60 * 1_000_000
                && -10_000 <= i.requestedPosition <= 10_000
                && i.intentId !in old(seen)
      ensures seen == if reasons == [] then old(seen) + {i.intentId} else old(seen)
    {
      reasons := SymbolReasons(symbol, i);
      reasons := reasons + When(Lower(i.strategy) !in known, SignalFromUnknownStrategy);
      reasons := reasons + AgeReasons(i, now);
      reasons := reasons + When(!Sane(i.requestedPosition), SignalRequestedPositionUnreasonable);
      reasons := reasons + When(i.intentId in seen, DuplicateSignal);
      if reasons == [] {
        seen := seen + {i.intentId};
      }
    }
  }
}
