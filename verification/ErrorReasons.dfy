/**
 What the execution gateway reads out of an error text: the numeric code, the reject kind, whether the order is gone,
 whether the outcome is open.
 */
module ErrorReasons {
  import opened Decimal
  import opened Wrappers

  // ---------------------------------------------------------------- text search

  predicate OccursAt(s: string, word: string, i: nat) {
    i + |word| <= |s| && s[i..i + |word|] == word
  }

  /** `find(word) != npos`. */
  predicate Contains(s: string, word: string) {
    exists i: nat :: i <= |s| && OccursAt(s, word, i)
  }

  /** `find(word, from)`: the first occurrence at or after `from`. */
  function FindFrom(s: string, word: string, from: nat): (r: Option<nat>)
    requires from <= |s|
    ensures r.Some? ==> from <= r.value <= |s| && OccursAt(s, word, r.value)
    ensures forall i: nat :: from <= i <= |s| && OccursAt(s, word, i) ==> r.Some? && r.value <= i
    decreases |s| - from
  {
    if OccursAt(s, word, from) then Some(from)
    else if from == |s| then None
    else FindFrom(s, word, from + 1)
  }

  function LowerChar(c: char): char {
    if 'A' <= c <= 'Z' then (c as int + 32) as char else c
  }

  function ToLower(s: string): (r: string)
    ensures |r| == |s| && forall i :: 0 <= i < |s| ==> r[i] == LowerChar(s[i])
  {
    if s == "" then "" else [LowerChar(s[0])] + ToLower(s[1..])
  }

  // ---------------------------------------------------------------- the messages

  /** The text of an error answer, as the REST client prints it. */
  function ApiError(retCode: int, retMsg: string): string {
    "Bybit API error, code: " + PrintInt(retCode) + ", msg: " + retMsg
  }

  /** The text of an HTTP status other than 200. */
  function BadResponse(status: nat, body: string): string {
    "Bad response, code " + Print(status) + ", msg: " + body
  }

  // ---------------------------------------------------------------- what the gateway reads

  function ExtractRetCode(reason: string): Option<int> {
    match FindFrom(reason, "code: ", 0)
    case Some(pos) => Some(Strtol(reason[pos + 6..]))
    case None => None
  }

  datatype RejectKind = BenignPostOnlyCross | MinNotional | Throttled | PositionClosed | Permanent | Hard

  function KindOfCode(code: int): Option<RejectKind> {
    if code == 30208 then Some(BenignPostOnlyCross)
    else if code == 110094 then Some(MinNotional)
    else if code == 10006 then Some(Throttled)
    else if code == 110017 then Some(PositionClosed)
    else if code in {10029, 30228, 110087} then Some(Permanent)
    else None
  }

  predicate ReadsCross(r: string) {
    Contains(r, "postonly") || Contains(r, "post only") || Contains(r, "post-only") || Contains(r, "take liquidity")
    || Contains(r, "takeliquidity")
  }

  predicate ReadsTooSmall(r: string) {
    Contains(r, "minimum order value") || Contains(r, "min notional") || Contains(r, "min size")
    || Contains(r, "exceeded lower limit")
  }

  predicate ReadsThrottled(r: string) {
    Contains(r, "too many visits") || Contains(r, "rate limit")
  }

  predicate ReadsClosed(r: string) {
    Contains(r, "reduce-only rule") || Contains(r, "reduce only rule") || Contains(r, "position is zero")
  }

  predicate ReadsPermanent(r: string) {
    Contains(r, "sign the required agreement") || Contains(r, "unmatched ip") || Contains(r, "delisting")
    || Contains(r, "no new positions") || Contains(r, "position idx") || Contains(r, "position mode")
    || Contains(r, "whitelist")
  }

  function KindOfText(reason: string): RejectKind {
    var r := ToLower(reason);
    if ReadsCross(r) then BenignPostOnlyCross
    else if ReadsTooSmall(r) then MinNotional
    else if ReadsThrottled(r) then Throttled
    else if ReadsClosed(r) then PositionClosed
    else if ReadsPermanent(r) then Permanent
    else Hard
  }

  function ClassifyRejectReason(reason: string): RejectKind {
    match ExtractRetCode(reason)
    case Some(code) => (match KindOfCode(code) case Some(kind) => kind case None => KindOfText(reason))
    case None => KindOfText(reason)
  }

  predicate IsOrderGoneReason(reason: string) {
    var code := ExtractRetCode(reason);
    || (code.Some? && code.value in {110001, 110008, 110010})
    || (var r := ToLower(reason);
        Contains(r, "order not exists") || Contains(r, "too late") || Contains(r, "order does not exist")
        || Contains(r, "110001"))
  }

  predicate IsAmbiguousOutcomeReason(reason: string) {
    var r := ToLower(reason);
    Contains(r, "code: 10000") || Contains(r, "code: 10016") || Contains(r, "bad response, code 5")
  }

  // ---------------------------------------------------------------- the code survives the text

  lemma FoundAfter(head: string, word: string, rest: string)
    requires word != "" && word[0] !in head
    ensures FindFrom(head + (word + rest), word, 0) == Some(|head|)
    ensures (head + (word + rest))[|head| + |word|..] == rest
  {
    var s := head + (word + rest);
    assert OccursAt(s, word, |head|);
    forall i: nat | i < |head| ensures !OccursAt(s, word, i) {
      assert s[i] == head[i] && head[i] in head;
      assert s[i] != word[0];
    }
  }

  lemma ApiErrorParts(retCode: int, retMsg: string)
    ensures ApiError(retCode, retMsg) == "Bybit API error, " + ("code: " + (PrintInt(retCode) + (", msg: " + retMsg)))
  {
    hide PrintInt;
    assert "Bybit API error, code: " == "Bybit API error, " + "code: ";
  }

  /** Printing an error answer and parsing it back gives the code, for every code and every message text. */
  lemma CodeRoundTrip(retCode: int, retMsg: string)
    ensures ExtractRetCode(ApiError(retCode, retMsg)) == Some(retCode)
  {
    ApiErrorParts(retCode, retMsg);
    hide ApiError, PrintInt, Strtol, FindFrom;
    var tail := PrintInt(retCode) + (", msg: " + retMsg);
    NoCodeBefore();
    FoundAfter("Bybit API error, ", "code: ", tail);
    StrtolOfPrintInt(retCode, ", msg: " + retMsg);
  }

  lemma NoCodeBefore()
    ensures 'c' !in "Bybit API error, "
  {
  }

  /** A listed code decides the reject kind whatever the text says. */
  lemma ListedCodeDecides(retCode: int, retMsg: string)
    ensures KindOfCode(retCode).Some? ==> ClassifyRejectReason(ApiError(retCode, retMsg)) == KindOfCode(retCode).value
    ensures retCode in {110001, 110008, 110010} ==> IsOrderGoneReason(ApiError(retCode, retMsg))
  {
    CodeRoundTrip(retCode, retMsg);
  }

  // ---------------------------------------------------------------- words in concatenated text

  lemma OccursInTail(a: string, b: string, word: string, i: nat)
    ensures OccursAt(b, word, i) <==> OccursAt(a + b, word, |a| + i)
  {
    if i + |word| <= |b| {
      assert (a + b)[|a| + i..|a| + i + |word|] == b[i..i + |word|];
    }
  }

  /** A prefix without the word's first letter changes nothing. */
  lemma Skip(a: string, b: string, word: string)
    requires word != "" && word[0] !in a
    ensures Contains(a + b, word) <==> Contains(b, word)
  {
    if Contains(a + b, word) {
      var i: nat :| i <= |a + b| && OccursAt(a + b, word, i);
      assert (a + b)[i] == word[0];
      assert i >= |a|;
      OccursInTail(a, b, word, i - |a|);
    }
    if Contains(b, word) {
      var i: nat :| i <= |b| && OccursAt(b, word, i);
      OccursInTail(a, b, word, i);
    }
  }

  lemma HeadOrTail(c: char, s: string, word: string)
    ensures Contains([c] + s, word) <==> word <= [c] + s || Contains(s, word)
  {
    var t := [c] + s;
    if Contains(t, word) {
      var i: nat :| i <= |t| && OccursAt(t, word, i);
      if i > 0 {
        OccursInTail([c], s, word, i - 1);
      }
    }
    if word <= t {
      assert OccursAt(t, word, 0);
    }
    if Contains(s, word) {
      var i: nat :| i <= |s| && OccursAt(s, word, i);
      OccursInTail([c], s, word, i);
    }
  }

  lemma LowerConcat(a: string, b: string)
    ensures ToLower(a + b) == ToLower(a) + ToLower(b)
  {
  }

  lemma LowerDigits(s: string)
    requires AllDigits(s)
    ensures ToLower(s) == s && ToLower("-" + s) == "-" + s
  {
  }

  lemma LowerPrinted(c: int)
    ensures ToLower(PrintInt(c)) == PrintInt(c)
    ensures forall x :: x in PrintInt(c) ==> x == '-' || IsDigit(x)
  {
    var n: nat := if c < 0 then -c else c;
    LowerDigits(Print(n));
  }

  // ---------------------------------------------------------------- when the outcome counts as open

  /** `word`, digits only, is a prefix of the printed code. */
  predicate StartsWith(code: int, word: string) {
    word <= PrintInt(code)
  }

  lemma LowerLiterals()
    ensures ToLower("Bybit API error, ") == "bybit api error, "
    ensures ToLower("code: ") == "code: " && ToLower(", msg: ") == ", msg: "
  {
    hide ToLower;
    assert LowerChar('B') == 'b' && LowerChar('A') == 'a' && LowerChar('P') == 'p' && LowerChar('I') == 'i';
    assert ToLower("Bybit API error, ") == "bybit api error, ";
    assert ToLower("code: ") == "code: ";
    assert ToLower(", msg: ") == ", msg: ";
  }

  lemma LowerApiError(retCode: int, retMsg: string)
    ensures ToLower(ApiError(retCode, retMsg)) ==
      "bybit api error, " + ("code: " + (PrintInt(retCode) + (", msg: " + ToLower(retMsg))))
  {
    ApiErrorParts(retCode, retMsg);
    LowerPrinted(retCode);
    LowerLiterals();
    hide ApiError, PrintInt, ToLower;
    var printed := PrintInt(retCode);
    LowerConcat(", msg: ", retMsg);
    LowerConcat(printed, ", msg: " + retMsg);
    LowerConcat("code: ", printed + (", msg: " + retMsg));
    LowerConcat("Bybit API error, ", "code: " + (printed + (", msg: " + retMsg)));
  }

  /** A word "code: ddddd" sits in an error answer either at its code or in its message text. */
  lemma CodeWord(retCode: int, lowered: string, digits: string)
    requires AllDigits(digits)
    ensures Contains("bybit api error, " + ("code: " + (PrintInt(retCode) + (", msg: " + lowered))), "code: " + digits)
            <==> StartsWith(retCode, digits) || Contains(lowered, "code: " + digits)
  {
    var word := "code: " + digits;
    var printed, msg := PrintInt(retCode), ", msg: " + lowered;
    LowerPrinted(retCode);
    hide Contains, PrintInt;
    Skip("bybit api error, ", "code: " + (printed + msg), word);
    assert "code: " + (printed + msg) == ['c'] + ("ode: " + (printed + msg));
    HeadOrTail('c', "ode: " + (printed + msg), word);
    Skip("ode: ", printed + msg, word);
    Skip(printed, msg, word);
    Skip(", msg: ", lowered, word);
    CodeAtHead(printed, msg, digits);
  }

  lemma CodeAtHead(printed: string, msg: string, digits: string)
    requires AllDigits(digits) && msg != "" && !IsDigit(msg[0])
    ensures "code: " + digits <= "code: " + (printed + msg) <==> digits <= printed
  {
    PrefixCancel("code: ", digits, printed + msg);
    var s := printed + msg;
    assert s[|printed|] == msg[0];
    assert forall i :: 0 <= i < |digits| ==> IsDigit(digits[i]);
    assert digits <= s ==> forall i :: 0 <= i < |digits| ==> s[i] == digits[i];
    assert digits <= s ==> |digits| <= |printed|;
  }

  lemma PrefixCancel(a: string, x: string, y: string)
    ensures a + x <= a + y <==> x <= y
  {
    assert forall i :: 0 <= i < |x| ==> (a + x)[|a| + i] == x[i];
    assert forall i :: 0 <= i < |y| ==> (a + y)[|a| + i] == y[i];
  }

  /** A letter of its own is not where a word starts if the next one differs. */
  lemma NotHere(c: char, s: string, word: string)
    requires |word| >= 2 && s != "" && s[0] != word[1]
    ensures Contains([c] + s, word) <==> Contains(s, word)
  {
    HeadOrTail(c, s, word);
    assert ([c] + s)[1] == s[0];
  }

  /** The word of a 5xx status sits in an error answer only in its message text. */
  lemma StatusWord(coded: string, word: string)
    requires |word| >= 2 && word[0] == 'b' && word[1] == 'a'
    ensures Contains("bybit api error, " + coded, word) <==> Contains(coded, word)
  {
    hide Contains;
    var s2 := "it api error, " + coded;
    Skip("it api error, ", coded, word);
    var s1 := ['b'] + s2;
    NotHere('b', s2, word);
    var s0 := "y" + s1;
    Skip("y", s1, word);
    NotHere('b', s0, word);
    assert "bybit api error, " + coded == ['b'] + s0;
  }

  lemma StatusWordInCode(retCode: int, lowered: string, word: string)
    requires word != "" && word[0] == 'b'
    ensures Contains("code: " + (PrintInt(retCode) + (", msg: " + lowered)), word) <==> Contains(lowered, word)
  {
    LowerPrinted(retCode);
    hide Contains, PrintInt;
    var msg := ", msg: " + lowered;
    Skip(", msg: ", lowered, word);
    Skip(PrintInt(retCode), msg, word);
    Skip("code: ", PrintInt(retCode) + msg, word);
  }

  /** An error answer counts as an open outcome if and only if its code starts with 10000 or 10016 or its message text
      reads like one. */
  lemma AmbiguousAnswer(retCode: int, retMsg: string)
    ensures IsAmbiguousOutcomeReason(ApiError(retCode, retMsg)) <==>
            StartsWith(retCode, "10000") || StartsWith(retCode, "10016") || IsAmbiguousOutcomeReason(retMsg)
  {
    var lowered := ToLower(retMsg);
    LowerApiError(retCode, retMsg);
    hide ApiError, ToLower, Contains, StartsWith;
    CodeWord(retCode, lowered, "10000");
    CodeWord(retCode, lowered, "10016");
    StatusWord("code: " + (PrintInt(retCode) + (", msg: " + lowered)), "bad response, code 5");
    StatusWordInCode(retCode, lowered, "bad response, code 5");
    assert "code: " + "10000" == "code: 10000" && "code: " + "10016" == "code: 10016";
  }

  lemma LowerStatusLiterals()
    ensures ToLower("Bad response, code ") == "bad response, code " && ToLower(", msg: ") == ", msg: "
  {
    hide ToLower;
    assert LowerChar('B') == 'b';
    assert ToLower("Bad response, code ") == "bad response, code ";
    assert ToLower(", msg: ") == ", msg: ";
  }

  lemma LowerBadResponse(status: nat, body: string)
    ensures ToLower(BadResponse(status, body)) == "bad response, code " + (Print(status) + (", msg: " + ToLower(body)))
  {
    var printed := Print(status);
    LowerDigits(printed);
    LowerStatusLiterals();
    hide ToLower, Print, LowerChar;
    LowerConcat(", msg: ", body);
    LowerConcat(printed, ", msg: " + body);
    LowerConcat("Bad response, code ", printed + (", msg: " + body));
    Regrouped("Bad response, code ", printed, ", msg: ", body);
  }

  lemma Regrouped(a: string, b: string, c: string, d: string)
    ensures a + b + c + d == a + (b + (c + d))
  {
  }

  lemma NoCodeWordInStatus(tail: string, word: string)
    requires |word| > 4 && word[0] == 'c' && word[4] == ':'
    ensures Contains("bad response, code " + tail, word) <==> Contains(tail, word)
  {
    hide Contains;
    Skip("ode ", tail, word);
    HeadOrTail('c', "ode " + tail, word);
    assert (['c'] + ("ode " + tail))[4] == ' ';
    Skip("bad response, ", ['c'] + ("ode " + tail), word);
    assert "bad response, code " + tail == "bad response, " + (['c'] + ("ode " + tail));
  }

  lemma StatusWordInStatus(tail: string)
    requires tail != ""
    ensures Contains("bad response, code " + tail, "bad response, code 5")
            <==> tail[0] == '5' || Contains(tail, "bad response, code 5")
  {
    var word, head := "bad response, code 5", "bad response, code ";
    hide Contains;
    Skip("ad response, code ", tail, word);
    HeadOrTail('b', "ad response, code " + tail, word);
    assert head + tail == ['b'] + ("ad response, code " + tail);
    PrefixCancel(head, "5", tail);
    assert word == head + "5";
  }

  lemma InBody(printed: string, lowered: string, word: string)
    requires AllDigits(printed) && word != "" && word[0] in "bc"
    ensures Contains(printed + (", msg: " + lowered), word) <==> Contains(lowered, word)
  {
    hide Contains;
    assert word[0] !in printed && word[0] !in ", msg: ";
    Skip(", msg: ", lowered, word);
    Skip(printed, ", msg: " + lowered, word);
  }

  /** A bad HTTP status counts as an open outcome if and only if it starts with 5 or its body reads like one. */
  lemma AmbiguousStatus(status: nat, body: string)
    ensures IsAmbiguousOutcomeReason(BadResponse(status, body)) <==>
            Print(status)[0] == '5' || IsAmbiguousOutcomeReason(body)
  {
    LowerBadResponse(status, body);
    hide BadResponse, ToLower, Contains, Print;
    var printed, lowered := Print(status), ToLower(body);
    var tail := printed + (", msg: " + lowered);
    NoCodeWordInStatus(tail, "code: 10000");
    NoCodeWordInStatus(tail, "code: 10016");
    StatusWordInStatus(tail);
    InBody(printed, lowered, "code: 10000");
    InBody(printed, lowered, "code: 10016");
    InBody(printed, lowered, "bad response, code 5");
  }

  /** Every 5xx status starts with 5. */
  lemma ServerErrorStatus(status: nat)
    requires 500 <= status <= 599
    ensures Print(status)[0] == '5'
  {
    assert Print(status) == Print(status / 10) + [DigitChar(status % 10)];
    assert Print(status / 10) == Print(status / 100) + [DigitChar(status / 10 % 10)];
    assert status / 100 == 5;
  }

  // ---------------------------------------------------------------- what the message text alone decides

  /** A word that lacks a character does not reach across it. */
  lemma SplitAt(x: string, c: char, y: string, word: string)
    requires word != "" && c !in word
    ensures Contains(x + [c] + y, word) <==> Contains(x, word) || Contains(y, word)
  {
    var s := x + [c] + y;
    if Contains(s, word) {
      var i: nat :| i <= |s| && OccursAt(s, word, i);
      NotAcross(x, c, y, word, i);
      if i + |word| <= |x| {
        OccursInHead(x, [c] + y, word, i);
      } else {
        OccursInTail(x + [c], y, word, i - |x| - 1);
      }
    }
    if Contains(x, word) {
      var i: nat :| i <= |x| && OccursAt(x, word, i);
      OccursInHead(x, [c] + y, word, i);
    }
    if Contains(y, word) {
      var i: nat :| i <= |y| && OccursAt(y, word, i);
      OccursInTail(x + [c], y, word, i);
    }
    assert s == x + ([c] + y);
  }

  lemma NotAcross(x: string, c: char, y: string, word: string, i: nat)
    requires c !in word && OccursAt(x + [c] + y, word, i)
    ensures i + |word| <= |x| || i > |x|
  {
    if i <= |x| < i + |word| {
      OccursChar(x + [c] + y, word, i, |x| - i);
      assert false;
    }
  }

  lemma OccursInHead(a: string, b: string, word: string, i: nat)
    requires i + |word| <= |a|
    ensures OccursAt(a, word, i) <==> OccursAt(a + b, word, i)
  {
    assert (a + b)[i..i + |word|] == a[i..i + |word|];
  }

  lemma OccursChar(s: string, word: string, i: nat, k: nat)
    requires k < |word|
    ensures OccursAt(s, word, i) ==> i + k < |s| && s[i + k] == word[k]
  {
    if OccursAt(s, word, i) {
      assert s[i..i + |word|][k] == s[i + k];
    }
  }

  lemma Lacks(s: string, word: string, c: char)
    requires c in word && c !in s
    ensures !Contains(s, word)
  {
    var k: nat :| k < |word| && word[k] == c;
    forall i: nat | i <= |s| ensures !OccursAt(s, word, i) {
      OccursChar(s, word, i, k);
    }
  }

  /** After a head that lacks one of the word's letters, the word sits in the text behind the colon or nowhere. */
  lemma BehindColon(head: string, text: string, word: string, c: char)
    requires word != "" && ':' !in word && word[0] != ' ' && c in word && c !in head
    ensures Contains(head + (": " + text), word) <==> Contains(text, word)
  {
    hide Contains;
    assert head + (": " + text) == head + [':'] + (" " + text);
    SplitAt(head, ':', " " + text, word);
    Lacks(head, word, c);
    Skip(" ", text, word);
  }

  /** The digits sit in the number behind a title, or in the text behind the colon. */
  lemma InNumberOrText(title: string, printed: string, text: string, digits: string)
    requires digits != "" && AllDigits(digits) && digits[0] !in title
    ensures Contains(title + (printed + (", msg: " + text)), digits) <==> Contains(printed, digits) || Contains(text, digits)
  {
    hide Contains;
    Skip(title, printed + (", msg: " + text), digits);
    assert printed + (", msg: " + text) == printed + [','] + (" msg: " + text);
    SplitAt(printed, ',', " msg: " + text, digits);
    Skip(" msg: ", text, digits);
  }

  lemma ErrorHead(printed: string, lowered: string)
    requires forall x :: x in printed ==> x == '-' || IsDigit(x)
    ensures "bybit api error, " + ("code: " + (printed + (", msg: " + lowered)))
            == "bybit api error, code: " + printed + ", msg" + (": " + lowered)
    ensures 'l' !in "bybit api error, code: " + printed + ", msg" && 'n' !in "bybit api error, code: " + printed + ", msg"
  {
    assert "bybit api error, " + "code: " == "bybit api error, code: ";
    assert ", msg: " == ", msg" + ": ";
  }

  /** A word with an l or an n sits in an error answer only in its message text. */
  lemma InMessage(retCode: int, retMsg: string, word: string)
    requires word != "" && ':' !in word && word[0] != ' ' && ('l' in word || 'n' in word)
    ensures Contains(ToLower(ApiError(retCode, retMsg)), word) <==> Contains(ToLower(retMsg), word)
  {
    var lowered, printed := ToLower(retMsg), PrintInt(retCode);
    LowerApiError(retCode, retMsg);
    LowerPrinted(retCode);
    hide ApiError, ToLower, Contains, PrintInt;
    ErrorHead(printed, lowered);
    BehindColon("bybit api error, code: " + printed + ", msg", lowered, word, if 'l' in word then 'l' else 'n');
  }

  lemma SameCross(retCode: int, retMsg: string)
    ensures ReadsCross(ToLower(ApiError(retCode, retMsg))) <==> ReadsCross(ToLower(retMsg))
  {
    hide ApiError, ToLower, Contains;
    InMessage(retCode, retMsg, "postonly");
    InMessage(retCode, retMsg, "post only");
    InMessage(retCode, retMsg, "post-only");
    InMessage(retCode, retMsg, "take liquidity");
    InMessage(retCode, retMsg, "takeliquidity");
  }

  lemma SameTooSmall(retCode: int, retMsg: string)
    ensures ReadsTooSmall(ToLower(ApiError(retCode, retMsg))) <==> ReadsTooSmall(ToLower(retMsg))
  {
    hide ApiError, ToLower, Contains;
    InMessage(retCode, retMsg, "minimum order value");
    InMessage(retCode, retMsg, "min notional");
    InMessage(retCode, retMsg, "min size");
    InMessage(retCode, retMsg, "exceeded lower limit");
  }

  lemma SameThrottledOrClosed(retCode: int, retMsg: string)
    ensures ReadsThrottled(ToLower(ApiError(retCode, retMsg))) <==> ReadsThrottled(ToLower(retMsg))
    ensures ReadsClosed(ToLower(ApiError(retCode, retMsg))) <==> ReadsClosed(ToLower(retMsg))
  {
    hide ApiError, ToLower, Contains;
    InMessage(retCode, retMsg, "too many visits");
    InMessage(retCode, retMsg, "rate limit");
    InMessage(retCode, retMsg, "reduce-only rule");
    InMessage(retCode, retMsg, "reduce only rule");
    InMessage(retCode, retMsg, "position is zero");
  }

  lemma SamePermanent(retCode: int, retMsg: string)
    ensures ReadsPermanent(ToLower(ApiError(retCode, retMsg))) <==> ReadsPermanent(ToLower(retMsg))
  {
    hide ApiError, ToLower, Contains;
    InMessage(retCode, retMsg, "sign the required agreement");
    InMessage(retCode, retMsg, "unmatched ip");
    InMessage(retCode, retMsg, "delisting");
    InMessage(retCode, retMsg, "no new positions");
    InMessage(retCode, retMsg, "position idx");
    InMessage(retCode, retMsg, "position mode");
    InMessage(retCode, retMsg, "whitelist");
  }

  /** The kind of an error answer, for every code and every message: seven codes are listed, and for any other code the
      message alone decides; nothing in the text around it is read as a keyword. */
  lemma KindOfAnswer(retCode: int, retMsg: string)
    ensures ClassifyRejectReason(ApiError(retCode, retMsg)) ==
      match retCode
      case 30208 => BenignPostOnlyCross
      case 110094 => MinNotional
      case 10006 => Throttled
      case 110017 => PositionClosed
      case 10029 => Permanent
      case 30228 => Permanent
      case 110087 => Permanent
      case _ => KindOfText(retMsg)
  {
    CodeRoundTrip(retCode, retMsg);
    SameCross(retCode, retMsg);
    SameTooSmall(retCode, retMsg);
    SameThrottledOrClosed(retCode, retMsg);
    SamePermanent(retCode, retMsg);
    hide ApiError, ToLower, ExtractRetCode, ReadsCross, ReadsTooSmall, ReadsThrottled, ReadsClosed, ReadsPermanent;
  }

  // ---------------------------------------------------------------- when the order counts as gone

  /** A text that says so. */
  predicate SaysGone(text: string) {
    var r := ToLower(text);
    exists word :: word in ["order not exists", "too late", "order does not exist", "110001"] && Contains(r, word)
  }

  /** An error answer reports an order gone if and only if its code is one of three, or has 110001 in it, or its message says
      so. */
  lemma GoneAnswer(retCode: int, retMsg: string)
    ensures IsOrderGoneReason(ApiError(retCode, retMsg)) <==>
            retCode in {110001, 110008, 110010} || Contains(PrintInt(retCode), "110001") || SaysGone(retMsg)
  {
    CodeRoundTrip(retCode, retMsg);
    GoneWords(retMsg);
    GoneDigits(retCode, retMsg);
    hide ApiError, ToLower, Contains, PrintInt, ExtractRetCode, SaysGone;
    InMessage(retCode, retMsg, "order not exists");
    InMessage(retCode, retMsg, "too late");
    InMessage(retCode, retMsg, "order does not exist");
  }

  lemma GoneDigits(retCode: int, retMsg: string)
    ensures Contains(ToLower(ApiError(retCode, retMsg)), "110001") <==>
            Contains(PrintInt(retCode), "110001") || Contains(ToLower(retMsg), "110001")
  {
    LowerApiError(retCode, retMsg);
    hide ApiError, ToLower, Contains, PrintInt;
    var printed, lowered := PrintInt(retCode), ToLower(retMsg);
    assert "bybit api error, " + ("code: " + (printed + (", msg: " + lowered)))
        == "bybit api error, code: " + (printed + (", msg: " + lowered));
    InNumberOrText("bybit api error, code: ", printed, lowered, "110001");
  }

  lemma GoneWords(text: string)
    ensures SaysGone(text) <==>
            var r := ToLower(text);
            Contains(r, "order not exists") || Contains(r, "too late") || Contains(r, "order does not exist")
            || Contains(r, "110001")
  {
    hide ToLower, Contains;
    var words := ["order not exists", "too late", "order does not exist", "110001"];
    assert words[0] in words && words[1] in words && words[2] in words && words[3] in words;
  }

  /** The code read from a bad status is the one read from its body: the status itself is not taken for one. */
  lemma StatusCode(status: nat, body: string)
    ensures ExtractRetCode(BadResponse(status, body)) == ExtractRetCode(body)
  {
    var head := "Bad response, code " + Print(status) + ", msg: ";
    forall i: nat | i < |head| ensures !OccursAt(head + body, "code: ", i) {
      NotInHead(status, body, i);
    }
    hide OccursAt, Print, FindFrom, Strtol;
    FindShifted(head, body, "code: ");
    if FindFrom(body, "code: ", 0).Some? {
      DropHead(head, body, FindFrom(body, "code: ", 0).value + 6);
    }
  }

  lemma DropHead(head: string, body: string, n: nat)
    requires n <= |body|
    ensures (head + body)[|head| + n..] == body[n..]
  {
  }

  lemma NotInHead(status: nat, body: string, i: nat)
    requires i < |"Bad response, code " + Print(status) + ", msg: "|
    ensures !OccursAt("Bad response, code " + Print(status) + ", msg: " + body, "code: ", i)
  {
    var s := "Bad response, code " + Print(status) + ", msg: " + body;
    assert i != 14 ==> s[i] != 'c';
    assert s[18] == ' ';
    OccursChar(s, "code: ", i, 0);
    OccursChar(s, "code: ", i, 4);
  }

  lemma FindShifted(head: string, body: string, word: string)
    requires forall i: nat :: i < |head| ==> !OccursAt(head + body, word, i)
    ensures FindFrom(head + body, word, 0) ==
            match FindFrom(body, word, 0) case Some(i) => Some(|head| + i) case None => None
  {
    var s := head + body;
    match FindFrom(body, word, 0)
    case Some(i) =>
      OccursInTail(head, body, word, i);
      var j := FindFrom(s, word, 0).value;
      assert j >= |head|;
      OccursInTail(head, body, word, j - |head|);
    case None =>
      if FindFrom(s, word, 0).Some? {
        var j := FindFrom(s, word, 0).value;
        assert j >= |head|;
        OccursInTail(head, body, word, j - |head|);
      }
  }

  /** A bad status reports an order gone if and only if its body does, or the status has 110001 in it. */
  lemma GoneStatus(status: nat, body: string)
    ensures IsOrderGoneReason(BadResponse(status, body)) <==>
            IsOrderGoneReason(body) || Contains(Print(status), "110001")
  {
    StatusCode(status, body);
    LowerBadResponse(status, body);
    var printed, lowered := Print(status), ToLower(body);
    hide BadResponse, ToLower, Contains, Print, ExtractRetCode;
    StatusHead(printed, lowered);
    var head := "bad response, code " + printed + ", msg";
    BehindColon(head, lowered, "order not exists", 'x');
    BehindColon(head, lowered, "too late", 'l');
    BehindColon(head, lowered, "order does not exist", 'x');
    InNumberOrText("bad response, code ", printed, lowered, "110001");
  }

  lemma StatusHead(printed: string, lowered: string)
    requires AllDigits(printed)
    ensures "bad response, code " + (printed + (", msg: " + lowered))
            == "bad response, code " + printed + ", msg" + (": " + lowered)
    ensures 'x' !in "bad response, code " + printed + ", msg" && 'l' !in "bad response, code " + printed + ", msg"
  {
    assert ", msg: " == ", msg" + ": ";
  }
}
