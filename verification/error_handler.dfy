/**
 * Classification of failures raised by Stellar/Soroban wallet and network calls
 * into a closed set of error codes, and the user-facing text for each code
 * (frontend/src/lib/error-handler.ts).
 */
module ErrorHandler {
  import opened Wrappers

  datatype ErrorCode =
    | WalletNotFound
    | UserRejected
    | NetworkMismatch
    | InsufficientFunds
    | ContractError
    | SimulationFailed
    | TxFailed
    | NotConnected
    | Unknown

  /**
   * A caught value. `ErrorObject` is anything for which `instanceof Error`
   * holds; `id` stands for the object's identity, so two errors with the same
   * text are still different values. Everything else that can be thrown
   * (strings, numbers, undefined, plain objects) is a `NonError`.
   */
  datatype Thrown = ErrorObject(id: nat, message: string) | NonError(id: nat)

  /** `originalError` is `None` when the optional argument was left out. */
  datatype PulsarError = PulsarError(code: ErrorCode, message: string, originalError: Option<Thrown>)

  const RejectedText := "User rejected the transaction"
  const WrongNetworkText := "Wrong network. Please switch to the correct Stellar network in Freighter."
  const LowBalanceText := "Insufficient XLM balance for this transaction."
  const GenericText := "An unexpected error occurred."

  function CreatePulsarError(code: ErrorCode, message: string, originalError: Option<Thrown> := None): PulsarError {
    PulsarError(code, message, originalError)
  }

  // ---------------------------------------------------------------------------
  // Text helpers

  /** `String.prototype.toLowerCase`, restricted to the ASCII letters. */
  function LowerChar(c: char): char {
    if 'A' <= c <= 'Z' then (c as int + 32) as char else c
  }

  function UpperChar(c: char): char {
    if 'a' <= c <= 'z' then (c as int - 32) as char else c
  }

  function ToLower(s: string): (r: string)
    ensures |r| == |s| && forall i :: 0 <= i < |s| ==> r[i] == LowerChar(s[i])
  {
    seq(|s|, i requires 0 <= i < |s| => LowerChar(s[i]))
  }

  function ToUpper(s: string): (r: string)
    ensures |r| == |s| && forall i :: 0 <= i < |s| ==> r[i] == UpperChar(s[i])
  {
    seq(|s|, i requires 0 <= i < |s| => UpperChar(s[i]))
  }

  /** `String.prototype.includes`: `pattern` occurs somewhere in `text`. */
  predicate Contains(text: string, pattern: string) {
    OccursFrom(text, pattern, 0)
  }

  /** `pattern` occurs in `text` at some position `i` or later. */
  predicate OccursFrom(text: string, pattern: string, i: nat)
    decreases |text| - i
  {
    i + |pattern| <= |text| && (OccursAt(text, pattern, i, 0) || OccursFrom(text, pattern, i + 1))
  }

  /** The characters of `pattern` from index `k` on sit in `text` from `i + k` on. */
  predicate OccursAt(text: string, pattern: string, i: nat, k: nat)
    requires i + |pattern| <= |text|
    decreases |pattern| - k
  {
    k >= |pattern| || (text[i + k] == pattern[k] && OccursAt(text, pattern, i, k + 1))
  }

  // ---------------------------------------------------------------------------
  // Classification

  /**
   * The guard chain of parseStellarError over the lower-cased message: the
   * first test that succeeds decides the code.
   */
  function MatchCode(msg: string): ErrorCode {
    if Contains(msg, "not found") || Contains(msg, "freighter") then WalletNotFound
    else if Contains(msg, "rejected") || Contains(msg, "cancel") then UserRejected
    else if Contains(msg, "network") || Contains(msg, "passphrase") then NetworkMismatch
    else if Contains(msg, "insufficient") || Contains(msg, "balance") then InsufficientFunds
    else if Contains(msg, "simulation") then SimulationFailed
    else if Contains(msg, "failed") || Contains(msg, "error") then ContractError
    else Unknown
  }

  /**
   * The message each branch of parseStellarError stores: three codes replace
   * the original text by a fixed one, the others keep it, and the fall-through
   * uses the generic text.
   */
  function BranchMessage(code: ErrorCode, original: string): string {
    match code
    case UserRejected => RejectedText
    case NetworkMismatch => WrongNetworkText
    case InsufficientFunds => LowBalanceText
    case Unknown => GenericText
    case _ => original
  }

  /**
   * parseStellarError: classify any thrown value. Total: every input yields a
   * PulsarError, and values that are not Error instances fall through to UNKNOWN.
   */
  function ParseStellarError(error: Thrown): (r: PulsarError)
    ensures r.originalError == Some(error)
    ensures r.code != TxFailed && r.code != NotConnected
    ensures error.NonError? ==> r.code == Unknown && r.message == GenericText
    ensures r.code in {WalletNotFound, SimulationFailed, ContractError} ==>
              error.ErrorObject? && r.message == error.message
    ensures r.code == UserRejected ==> r.message == RejectedText
    ensures r.code == NetworkMismatch ==> r.message == WrongNetworkText
    ensures r.code == InsufficientFunds ==> r.message == LowBalanceText
    ensures r.code == Unknown ==> r.message == GenericText
  {
    match error
    case ErrorObject(_, message) =>
      var code := MatchCode(ToLower(message));
      CreatePulsarError(code, BranchMessage(code, message), Some(error))
    case NonError(_) =>
      CreatePulsarError(Unknown, GenericText, Some(error))
  }

  /**
   * The same classification written as an ordered table of signatures:
   * the first signature one of whose patterns occurs in the lower-cased text
   * decides the code; `fixedText` replaces the original message when present.
   */
  datatype Signature = Signature(patterns: seq<string>, code: ErrorCode, fixedText: Option<string>)

  const Signatures: seq<Signature> := [
    Signature(["not found", "freighter"], WalletNotFound, None),
    Signature(["rejected", "cancel"], UserRejected, Some(RejectedText)),
    Signature(["network", "passphrase"], NetworkMismatch, Some(WrongNetworkText)),
    Signature(["insufficient", "balance"], InsufficientFunds, Some(LowBalanceText)),
    Signature(["simulation"], SimulationFailed, None),
    Signature(["failed", "error"], ContractError, None)
  ]

  predicate MatchesAny(text: string, patterns: seq<string>) {
    exists k :: 0 <= k < |patterns| && Contains(text, patterns[k])
  }

  /** Index of the first signature in `table` that matches `text`, if any. */
  function FirstMatch(text: string, table: seq<Signature>): (r: Option<nat>)
    ensures r.Some? ==> r.value < |table| && MatchesAny(text, table[r.value].patterns)
  {
    if table == [] then None
    else if MatchesAny(text, table[0].patterns) then Some(0)
    else match FirstMatch(text, table[1..])
      case None => None
      case Some(k) => Some(k + 1)
  }

  function ClassifyByTable(error: Thrown): PulsarError {
    match error
    case NonError(_) => PulsarError(Unknown, GenericText, Some(error))
    case ErrorObject(_, message) =>
      match FirstMatch(ToLower(message), Signatures)
      case None => PulsarError(Unknown, GenericText, Some(error))
      case Some(k) => PulsarError(Signatures[k].code, Signatures[k].fixedText.GetOr(message), Some(error))
  }

  /** First match wins: the table answers `k` exactly when signature `k` matches and no earlier one does. */
  lemma {:induction false} FirstMatchIsFirst(text: string, table: seq<Signature>, k: nat)
    requires k < |table|
    ensures FirstMatch(text, table) == Some(k) <==>
              MatchesAny(text, table[k].patterns) && forall j :: 0 <= j < k ==> !MatchesAny(text, table[j].patterns)
  {
    if k > 0 && !MatchesAny(text, table[0].patterns) {
      FirstMatchIsFirst(text, table[1..], k - 1);
      forall j | 0 < j < k ensures table[1..][j - 1] == table[j] { }
    }
  }

  lemma MatchesAnyPair(text: string, a: string, b: string)
    ensures MatchesAny(text, [a, b]) <==> Contains(text, a) || Contains(text, b)
  {
    if Contains(text, a) { assert [a, b][0] == a; }
    if Contains(text, b) { assert [a, b][1] == b; }
  }

  lemma MatchesAnySingle(text: string, a: string)
    ensures MatchesAny(text, [a]) <==> Contains(text, a)
  {
    if Contains(text, a) { assert [a][0] == a; }
  }

  /** The table answers nothing exactly when no signature matches. */
  lemma {:induction false} FirstMatchNone(text: string, table: seq<Signature>)
    ensures FirstMatch(text, table) == None <==> forall j :: 0 <= j < |table| ==> !MatchesAny(text, table[j].patterns)
  {
    if table != [] && !MatchesAny(text, table[0].patterns) {
      FirstMatchNone(text, table[1..]);
      forall j | 0 < j < |table| ensures table[1..][j - 1] == table[j] { }
    }
  }

  /** The if-chain of parseStellarError and the ordered signature table agree on every input. */
  lemma ParseFollowsSignatureTable(error: Thrown)
    ensures ParseStellarError(error) == ClassifyByTable(error)
  {
    if error.ErrorObject? {
      var msg := ToLower(error.message);
      MatchesAnyPair(msg, "not found", "freighter");
      MatchesAnyPair(msg, "rejected", "cancel");
      MatchesAnyPair(msg, "network", "passphrase");
      MatchesAnyPair(msg, "insufficient", "balance");
      MatchesAnySingle(msg, "simulation");
      MatchesAnyPair(msg, "failed", "error");
      if MatchesAny(msg, Signatures[0].patterns) {
        FirstMatchIsFirst(msg, Signatures, 0);
      } else if MatchesAny(msg, Signatures[1].patterns) {
        FirstMatchIsFirst(msg, Signatures, 1);
      } else if MatchesAny(msg, Signatures[2].patterns) {
        FirstMatchIsFirst(msg, Signatures, 2);
      } else if MatchesAny(msg, Signatures[3].patterns) {
        FirstMatchIsFirst(msg, Signatures, 3);
      } else if MatchesAny(msg, Signatures[4].patterns) {
        FirstMatchIsFirst(msg, Signatures, 4);
      } else if MatchesAny(msg, Signatures[5].patterns) {
        FirstMatchIsFirst(msg, Signatures, 5);
      } else {
        FirstMatchNone(msg, Signatures);
      }
    }
  }

  /**
   * Precedence: a message mentioning the network is a network mismatch even
   * when it also says "error" or "failed", unless an earlier signature fires.
   */
  lemma NetworkBeatsGenericError(id: nat, message: string)
    requires var msg := ToLower(message);
      Contains(msg, "network") && Contains(msg, "error") &&
      !Contains(msg, "not found") && !Contains(msg, "freighter") &&
      !Contains(msg, "rejected") && !Contains(msg, "cancel")
    ensures ParseStellarError(ErrorObject(id, message)).code == NetworkMismatch
  {
  }

  lemma LowerOfUpper(s: string)
    ensures ToLower(ToUpper(s)) == ToLower(s)
  {
    forall i | 0 <= i < |s| ensures ToLower(ToUpper(s))[i] == ToLower(s)[i] {
      assert LowerChar(UpperChar(s[i])) == LowerChar(s[i]);
    }
  }

  /** Matching is case-insensitive: shouting the message does not change its code. */
  lemma ClassificationIgnoresCase(id: nat, message: string)
    ensures ParseStellarError(ErrorObject(id, ToUpper(message))).code == ParseStellarError(ErrorObject(id, message)).code
  {
    LowerOfUpper(message);
  }

  // ---------------------------------------------------------------------------
  // Presentation

  /** getErrorMessage: the display string for a classified error. */
  function GetErrorMessage(error: PulsarError): (s: string)
    ensures s != ""
  {
    match error.code
    case WalletNotFound => "Freighter wallet not found. Please install the Freighter browser extension."
    case UserRejected => "Transaction was rejected by the user."
    case NetworkMismatch => "Network mismatch. Please switch to the correct Stellar network in Freighter."
    case InsufficientFunds => "Insufficient XLM balance. Please fund your account on the Stellar testnet."
    case SimulationFailed => "Contract simulation failed: " + error.message
    case ContractError => "Contract error: " + error.message
    case TxFailed => "Transaction failed on-chain."
    case NotConnected => "Wallet not connected. Please connect your Freighter wallet."
    // the source's `default` branch, which only UNKNOWN reaches
    case Unknown => if error.message != "" then error.message else GenericText
  }

  /** Every code other than SIMULATION_FAILED, CONTRACT_ERROR and UNKNOWN shows a fixed text. */
  lemma FixedDisplayIgnoresMessage(code: ErrorCode, m1: string, m2: string, o1: Option<Thrown>, o2: Option<Thrown>)
    requires code !in {SimulationFailed, ContractError, Unknown}
    ensures GetErrorMessage(PulsarError(code, m1, o1)) == GetErrorMessage(PulsarError(code, m2, o2))
  {
  }

  /** SIMULATION_FAILED and CONTRACT_ERROR show a prefix followed by the stored message. */
  lemma DisplayEndsWithMessage(error: PulsarError)
    requires error.code in {SimulationFailed, ContractError}
    ensures var s := GetErrorMessage(error);
      |s| > |error.message| && s[|s| - |error.message|..] == error.message
  {
  }

  /** UNKNOWN shows the stored message, or the generic text when it is empty. */
  lemma UnknownDisplay(error: PulsarError)
    requires error.code == Unknown
    ensures error.message != "" ==> GetErrorMessage(error) == error.message
    ensures error.message == "" ==> GetErrorMessage(error) == GenericText
  {
  }

  /** Whatever is thrown, classifying it and presenting the result never shows an empty text, and a non-error shows the generic text. */
  lemma DisplayOfNonError(id: nat)
    ensures GetErrorMessage(ParseStellarError(NonError(id))) == GenericText
  {
  }

  // ---------------------------------------------------------------------------
  // Concrete scenarios

  lemma {:induction false} OccursAtChars(text: string, pattern: string, i: nat, k: nat)
    requires i + |pattern| <= |text| && OccursAt(text, pattern, i, k)
    ensures forall m :: k <= m < |pattern| ==> text[i + m] == pattern[m]
    decreases |pattern| - k
  {
    if k < |pattern| {
      OccursAtChars(text, pattern, i, k + 1);
    }
  }

  lemma {:induction false} OccursFromChars(text: string, pattern: string, i: nat)
    requires OccursFrom(text, pattern, i)
    ensures forall c :: c in pattern ==> c in text
    decreases |text| - i
  {
    if OccursAt(text, pattern, i, 0) {
      OccursAtChars(text, pattern, i, 0);
      forall c | c in pattern ensures c in text {
        var m :| 0 <= m < |pattern| && pattern[m] == c;
        assert text[i + m] == c;
      }
    } else {
      OccursFromChars(text, pattern, i + 1);
    }
  }

  /** A pattern holding a character that the text lacks does not occur in it. */
  lemma MissingCharBlocks(text: string, pattern: string, c: char)
    requires c in pattern && c !in text
    ensures !Contains(text, pattern)
  {
    if Contains(text, pattern) {
      OccursFromChars(text, pattern, 0);
    }
  }

  lemma {:induction false} OccursAtOfSlice(text: string, pattern: string, i: nat, k: nat)
    requires i + |pattern| <= |text| && text[i..i + |pattern|] == pattern
    ensures OccursAt(text, pattern, i, k)
    decreases |pattern| - k
  {
    if k < |pattern| {
      assert text[i + k] == text[i..i + |pattern|][k];
      OccursAtOfSlice(text, pattern, i, k + 1);
    }
  }

  lemma {:induction false} OccursFromBefore(text: string, pattern: string, j: nat, i: nat)
    requires j <= i && i + |pattern| <= |text| && OccursAt(text, pattern, i, 0)
    ensures OccursFrom(text, pattern, j)
    decreases i - j
  {
    if j < i {
      OccursFromBefore(text, pattern, j + 1, i);
    }
  }

  /** A pattern that sits at position `i` of the text is contained in it. */
  lemma ContainsAt(text: string, pattern: string, i: nat)
    requires i + |pattern| <= |text| && text[i..i + |pattern|] == pattern
    ensures Contains(text, pattern)
  {
    OccursAtOfSlice(text, pattern, i, 0);
    OccursFromBefore(text, pattern, 0, i);
  }

  /** A pattern placed between any prefix and suffix is contained in the result. */
  lemma ContainsInfix(prefix: string, pattern: string, suffix: string)
    ensures Contains(prefix + pattern + suffix, pattern)
  {
    var text := prefix + pattern + suffix;
    assert text[|prefix|..|prefix| + |pattern|] == pattern;
    ContainsAt(text, pattern, |prefix|);
  }

  lemma NetworkErrorText(msg: string)
    requires msg == "network error occurred"
    ensures !Contains(msg, "not found") && !Contains(msg, "freighter")
    ensures !Contains(msg, "rejected") && !Contains(msg, "cancel")
    ensures Contains(msg, "network")
  {
    MissingCharBlocks(msg, "not found", 'f');
    MissingCharBlocks(msg, "freighter", 'f');
    MissingCharBlocks(msg, "rejected", 'j');
    MissingCharBlocks(msg, "cancel", 'a');
    ContainsAt(msg, "network", 0);
  }

  /** "network error occurred" mentions both "network" and "error"; the earlier signature wins. */
  lemma NetworkErrorScenario(id: nat)
    ensures ParseStellarError(ErrorObject(id, "network error occurred")).code == NetworkMismatch
  {
    assert ToLower("network error occurred") == "network error occurred";
    NetworkErrorText("network error occurred");
  }

  lemma RejectedRequestText(msg: string)
    requires msg == "user rejected the request"
    ensures !Contains(msg, "not found") && !Contains(msg, "freighter")
    ensures Contains(msg, "rejected")
  {
    MissingCharBlocks(msg, "not found", 'f');
    MissingCharBlocks(msg, "freighter", 'f');
    assert msg == "user " + "rejected" + " the request";
    ContainsInfix("user ", "rejected", " the request");
  }

  /** A rejection keeps only the fixed text; the original wording is dropped. */
  lemma RejectedScenario(id: nat)
    ensures ParseStellarError(ErrorObject(id, "User rejected the request")) ==
            PulsarError(UserRejected, RejectedText, Some(ErrorObject(id, "User rejected the request")))
  {
    assert ToLower("User rejected the request") == "user rejected the request";
    RejectedRequestText("user rejected the request");
  }
}
