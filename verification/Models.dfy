/** The message and response records of pkg/models, and what validation and
    NewResponse make of them. */
module Models {
  import opened Basics

  /** A timestamp field: its text, and whether time.Parse with the RFC 3339
      layout accepts that text. */
  datatype Timestamp = Timestamp(text: string, parses: bool)

  const NO_TIMESTAMP := Timestamp("", false)

  datatype Message = Message(
    userId: string,
    username: string,
    message: string,
    timestamp: Timestamp,
    messageType: string)

  const ZERO_MESSAGE := Message("", "", "", NO_TIMESTAMP, "")

  const JOIN := "JOIN"
  const TEXT := "TEXT"
  const LEAVE := "LEAVE"

  type ErrorMap = map<string, string>

  datatype Data = Errors(errors: ErrorMap) | Echo(echoed: Message)

  datatype Response = Response(
    message: Message,
    serverTimestamp: string,
    status: int,
    error: string,
    data: Data)

  const OK := 200
  const UNPROCESSABLE := 422

  // ---------------------------------------------------------------- integers

  predicate IsDigit(c: char) { '0' <= c <= '9' }

  predicate AllDigits(s: string) { forall i :: 0 <= i < |s| ==> IsDigit(s[i]) }

  function DigitsValue(s: string): nat
    requires AllDigits(s)
  {
    if s == "" then 0 else 10 * DigitsValue(s[..|s| - 1]) + (s[|s| - 1] as int - '0' as int)
  }

  /** strconv.Atoi on a 64-bit platform: an optional sign, at least one
      decimal digit, nothing else, and a value that fits. */
  function Atoi(s: string): Option<int> {
    var signed := s != "" && (s[0] == '+' || s[0] == '-');
    var digits := if signed then s[1..] else s;
    if digits == "" || !AllDigits(digits) then None
    else
      var value: int := if signed && s[0] == '-' then 0 - DigitsValue(digits) else DigitsValue(digits);
      if -0x8000_0000_0000_0000 <= value < 0x8000_0000_0000_0000 then Some(value) else None
  }

  function Decimal(n: nat): (s: string)
    ensures s != "" && AllDigits(s)
  {
    if n < 10 then [('0' as int + n) as char]
    else Decimal(n / 10) + [('0' as int + n % 10) as char]
  }

  lemma {:induction false} DecimalValue(n: nat)
    ensures DigitsValue(Decimal(n)) == n
  {
    if n >= 10 {
      DecimalValue(n / 10);
      assert Decimal(n)[..|Decimal(n)| - 1] == Decimal(n / 10);
    } else {
      assert Decimal(n)[..0] == "";
    }
  }

  // -------------------------------------------------------------- validation

  function UserIdErrors(m: Message): ErrorMap {
    match Atoi(m.userId)
    case None => map["UserID" := "UserID must be a valid integer"]
    case Some(id) =>
      if id < 1 then map["UserID" := "UserID must be greater than 1"]
      else if id > 100000 then map["UserID" := "UserID must be less than 100000"]
      else map[]
  }

  function UsernameErrors(m: Message): ErrorMap {
    if |m.username| < 3 then map["Username" := "Username must be at least 3 characters long"]
    else if |m.username| > 20 then map["Username" := "Username must be less than 20 characters long"]
    else map[]
  }

  function TypeErrors(m: Message): ErrorMap {
    if m.messageType != JOIN && m.messageType != TEXT && m.messageType != LEAVE
    then map["MessageType" := "Invalid MessageType"]
    else map[]
  }

  function TimestampErrors(m: Message): ErrorMap {
    if m.timestamp.parses then map[] else map["Timestamp" := "Timestamp cannot be empty"]
  }

  function ContentErrors(m: Message): ErrorMap {
    if |m.message| < 1 then map["Message" := "Message cannot be empty"]
    else if |m.message| > 500 then map["Message" := "Message must be less than 500 characters long"]
    else map[]
  }

  /** The error map Validate accumulates, in the order it fills it. */
  function AllErrors(m: Message): ErrorMap {
    UserIdErrors(m) + UsernameErrors(m) + TypeErrors(m) + TimestampErrors(m)
    + (if m.messageType == TEXT then ContentErrors(m) else map[])
  }

  /** What a valid message is, stated on the fields alone. */
  predicate WellFormed(m: Message) {
    && Atoi(m.userId).Some? && 1 <= Atoi(m.userId).value <= 100000
    && 3 <= |m.username| <= 20
    && m.messageType in [JOIN, TEXT, LEAVE]
    && m.timestamp.parses
    && (m.messageType == TEXT ==> 1 <= |m.message| <= 500)
  }

  lemma ErrorsIffIllFormed(m: Message)
    ensures AllErrors(m) == map[] <==> WellFormed(m)
  {
    if !WellFormed(m) {
      assert "UserID" in AllErrors(m) || "Username" in AllErrors(m) || "MessageType" in AllErrors(m)
          || "Timestamp" in AllErrors(m) || "Message" in AllErrors(m);
    }
  }

  /** Every id the load generator uses, written in decimal, passes the id
      check; no other decimal does. */
  lemma DecimalUserIds(n: nat, m: Message)
    requires n < 0x8000_0000_0000_0000 && m.userId == Decimal(n)
    ensures UserIdErrors(m) == map[] <==> 1 <= n <= 100000
  {
    DecimalValue(n);
    assert m.userId[0] != '+' && m.userId[0] != '-';
    assert !(1 <= n <= 100000) ==> "UserID" in UserIdErrors(m);
  }

  /** The error map the validate* methods share. */
  class ErrorTable {
    var entries: ErrorMap

    constructor ()
      ensures entries == map[]
    { entries := map[]; }
  }

  method ValidateUserID(m: Message, errors: ErrorTable)
    modifies errors
    ensures errors.entries == old(errors.entries) + UserIdErrors(m)
  {
    var id := Atoi(m.userId);
    if id.None? || id.value < 1 || id.value > 100000 {
      if id.None? {
        errors.entries := errors.entries["UserID" := "UserID must be a valid integer"];
      } else if id.value < 1 {
        errors.entries := errors.entries["UserID" := "UserID must be greater than 1"];
      } else if id.value > 100000 {
        errors.entries := errors.entries["UserID" := "UserID must be less than 100000"];
      }
    }
    assert errors.entries == old(errors.entries) + UserIdErrors(m);
  }

  method ValidateUsername(m: Message, errors: ErrorTable)
    modifies errors
    ensures errors.entries == old(errors.entries) + UsernameErrors(m)
  {
    if |m.username| < 3 || |m.username| > 20 {
      if |m.username| < 3 {
        errors.entries := errors.entries["Username" := "Username must be at least 3 characters long"];
      } else if |m.username| > 20 {
        errors.entries := errors.entries["Username" := "Username must be less than 20 characters long"];
      }
    }
    assert errors.entries == old(errors.entries) + UsernameErrors(m);
  }

  method ValidateMessage(m: Message, errors: ErrorTable)
    modifies errors
    ensures errors.entries == old(errors.entries) + ContentErrors(m)
  {
    if |m.message| < 1 || |m.message| > 500 {
      if |m.message| < 1 {
        errors.entries := errors.entries["Message" := "Message cannot be empty"];
      } else if |m.message| > 500 {
        errors.entries := errors.entries["Message" := "Message must be less than 500 characters long"];
      }
    }
    assert errors.entries == old(errors.entries) + ContentErrors(m);
  }

  method ValidateTimestamp(m: Message, errors: ErrorTable)
    modifies errors
    ensures errors.entries == old(errors.entries) + TimestampErrors(m)
  {
    if !m.timestamp.parses {
      errors.entries := errors.entries["Timestamp" := "Timestamp cannot be empty"];
    }
    assert errors.entries == old(errors.entries) + TimestampErrors(m);
  }

  method ValidateMessageType(m: Message, errors: ErrorTable)
    modifies errors
    ensures errors.entries == old(errors.entries) + TypeErrors(m)
  {
    if m.messageType != JOIN && m.messageType != TEXT && m.messageType != LEAVE {
      errors.entries := errors.entries["MessageType" := "Invalid MessageType"];
    }
    assert errors.entries == old(errors.entries) + TypeErrors(m);
  }

  lemma AddNothing(a: ErrorMap)
    ensures map[] + a == a && a + map[] == a
  {}

  /** What Validate returns: nothing, the error of a nil message, or the
      failing fields. */
  datatype Verdict = Valid | NilMessage | Invalid(errors: ErrorMap)

  /** None is Go's nil receiver. */
  method Validate(message: Option<Message>) returns (r: Verdict)
    ensures r.NilMessage? <==> message.None?
    ensures r.Valid? <==> message.Some? && WellFormed(message.value)
    ensures r.Invalid? ==> r.errors == AllErrors(message.value) && r.errors != map[]
  {
    if message.None? {
      return NilMessage;
    }
    var m := message.value;
    var errors := new ErrorTable();
    ValidateUserID(m, errors);
    ValidateUsername(m, errors);
    ValidateMessageType(m, errors);
    ValidateTimestamp(m, errors);
    if m.messageType == TEXT {
      ValidateMessage(m, errors);
    }
    AddNothing(UserIdErrors(m));
    AddNothing(UserIdErrors(m) + UsernameErrors(m) + TypeErrors(m) + TimestampErrors(m));
    ErrorsIffIllFormed(m);
    r := if |errors.entries| > 0 then Invalid(errors.entries) else Valid;
  }

  // --------------------------------------------------------------- responses

  function NewResponse(m: Message, now: string): Response {
    if WellFormed(m) then Response(m, now, OK, "", Echo(m))
    else Response(ZERO_MESSAGE, now, UNPROCESSABLE, "Incorrect message format", Errors(AllErrors(m)))
  }

  function NewMessage(userId: string, username: string, message: string, messageType: string): Message {
    Message(userId, username, message, NO_TIMESTAMP, messageType)
  }

  /** The parts of a response that reach every reader alike. */
  predicate SameAnswer(a: Response, b: Response) {
    a.message == b.message && a.status == b.status && a.error == b.error
  }

  /** Another server rebuilds its response from the Message field alone, which
      is the zero message when the original was rejected. */
  lemma RebuiltResponseAgrees(m: Message, now: string, later: string)
    ensures SameAnswer(NewResponse(NewResponse(m, now).message, later), NewResponse(m, now))
    ensures NewResponse(NewResponse(m, now).message, later).data == NewResponse(m, now).data
       <==> WellFormed(m) || WrongEverywhere(m)
  {
    assert !WellFormed(ZERO_MESSAGE);
    if !WellFormed(m) { ZeroErrorsIff(m); }
  }

  /** One the data fields differ on: a TEXT without a readable timestamp. */
  lemma DataCanDiffer(now: string, later: string)
    ensures var m := Message("1", "bob", "hi", NO_TIMESTAMP, TEXT);
      NewResponse(NewResponse(m, now).message, later).data != NewResponse(m, now).data
  {
    var m := Message("1", "bob", "hi", NO_TIMESTAMP, TEXT);
    RebuiltResponseAgrees(m, now, later);
    assert |m.username| == 3;
  }

  /** Wrong in the four checks every message gets: an id that is no integer, a
      name too short, an unknown type, an unreadable timestamp. */
  predicate WrongEverywhere(m: Message) {
    Atoi(m.userId).None? && |m.username| < 3 && m.messageType !in [JOIN, TEXT, LEAVE] && !m.timestamp.parses
  }

  datatype Checks = Checks(id: ErrorMap, name: ErrorMap, kind: ErrorMap, time: ErrorMap, content: ErrorMap)

  function ChecksOf(m: Message): Checks {
    Checks(UserIdErrors(m), UsernameErrors(m), TypeErrors(m), TimestampErrors(m),
          if m.messageType == TEXT then ContentErrors(m) else map[])
  }

  function Together(p: Checks): ErrorMap { p.id + p.name + p.kind + p.time + p.content }

  predicate Keyed(p: Checks, id: string, name: string, kind: string, time: string, content: string) {
    && p.id.Keys <= {id} && p.name.Keys <= {name} && p.kind.Keys <= {kind} && p.time.Keys <= {time}
    && p.content.Keys <= {content}
  }

  predicate OwnKeys(p: Checks) { Keyed(p, "UserID", "Username", "MessageType", "Timestamp", "Message") }

  /** Checks that write under keys of their own hide nothing from each other. */
  lemma KeyedSums(p: Checks, q: Checks, id: string, name: string, kind: string, time: string, content: string)
    requires Keyed(p, id, name, kind, time, content) && Keyed(q, id, name, kind, time, content)
    requires name != id && kind !in {id, name} && time !in {id, name, kind} && content !in {id, name, kind, time}
    requires Together(p) == Together(q)
    ensures p == q
  {
    var two := {id, name};
    var three := two + {kind};
    SumKeys(p.id, p.name, {id}, name);
    SumKeys(q.id, q.name, {id}, name);
    assert two == {id} + {name};
    SumKeys(p.id + p.name, p.kind, two, kind);
    SumKeys(q.id + q.name, q.kind, two, kind);
    SumKeys(p.id + p.name + p.kind, p.time, three, time);
    SumKeys(q.id + q.name + q.kind, q.time, three, time);
    SplitSum(p.id + p.name + p.kind + p.time, p.content, q.id + q.name + q.kind + q.time, q.content,
             three + {time}, content);
    SplitSum(p.id + p.name + p.kind, p.time, q.id + q.name + q.kind, q.time, three, time);
    SplitSum(p.id + p.name, p.kind, q.id + q.name, q.kind, two, kind);
    SplitSum(p.id, p.name, q.id, q.name, {id}, name);
  }

  lemma SumKeys(a: ErrorMap, b: ErrorMap, keys: set<string>, key: string)
    requires a.Keys <= keys && b.Keys <= {key}
    ensures (a + b).Keys <= keys + {key}
  {}

  lemma SameSumSameChecks(p: Checks, q: Checks)
    requires OwnKeys(p) && OwnKeys(q) && Together(p) == Together(q)
    ensures p == q
  {
    KeyedSums(p, q, "UserID", "Username", "MessageType", "Timestamp", "Message");
  }

  lemma SplitSum(a: ErrorMap, b: ErrorMap, a': ErrorMap, b': ErrorMap, keys: set<string>, key: string)
    requires a.Keys <= keys && a'.Keys <= keys && key !in keys
    requires b.Keys <= {key} && b'.Keys <= {key} && a + b == a' + b'
    ensures a == a' && b == b'
  {
    assert forall k :: k in a + b <==> k in a' + b';
    assert (key in a + b <==> key in b) && (key in a' + b' <==> key in b');
    assert forall k :: k in a ==> (a + b)[k] == a[k];
    assert forall k :: k in a' ==> (a' + b')[k] == a'[k];
    if key in b { assert (a + b)[key] == b[key] && (a' + b')[key] == b'[key]; }
  }

  lemma IdPart(m: Message)
    ensures UserIdErrors(m) == UserIdErrors(ZERO_MESSAGE) <==> Atoi(m.userId).None?
  {
    assert UserIdErrors(ZERO_MESSAGE)["UserID"] == "UserID must be a valid integer";
  }

  lemma NamePart(m: Message)
    ensures UsernameErrors(m) == UsernameErrors(ZERO_MESSAGE) <==> |m.username| < 3
  {
    assert UsernameErrors(ZERO_MESSAGE)["Username"] == "Username must be at least 3 characters long";
  }

  lemma OtherParts(m: Message)
    ensures TypeErrors(m) == TypeErrors(ZERO_MESSAGE) <==> m.messageType !in [JOIN, TEXT, LEAVE]
    ensures TimestampErrors(m) == TimestampErrors(ZERO_MESSAGE) <==> !m.timestamp.parses
  {
    assert "MessageType" in TypeErrors(ZERO_MESSAGE) && "Timestamp" in TimestampErrors(ZERO_MESSAGE);
  }

  lemma ChecksOfAll(m: Message)
    ensures OwnKeys(ChecksOf(m)) && AllErrors(m) == Together(ChecksOf(m))
  {}

  lemma SameChecks(m: Message)
    ensures ChecksOf(m) == ChecksOf(ZERO_MESSAGE) <==> WrongEverywhere(m)
  {
    IdPart(m);
    NamePart(m);
    OtherParts(m);
  }

  /** Exactly these are told what the zero message would be told. */
  lemma ZeroErrorsIff(m: Message)
    ensures AllErrors(m) == AllErrors(ZERO_MESSAGE) <==> WrongEverywhere(m)
  {
    ChecksOfAll(m);
    ChecksOfAll(ZERO_MESSAGE);
    SameChecks(m);
    if AllErrors(m) == AllErrors(ZERO_MESSAGE) { SameSumSameChecks(ChecksOf(m), ChecksOf(ZERO_MESSAGE)); }
  }

  /** NewMessage leaves the timestamp empty, so nothing built by it validates:
      the LEAVE a server makes up for a lost connection is always answered 422
      and carries nothing of the user. */
  lemma MadeUpMessageIsRejected(userId: string, username: string, text: string, kind: string, now: string)
    ensures NewResponse(NewMessage(userId, username, text, kind), now).status == UNPROCESSABLE
    ensures NewResponse(NewMessage(userId, username, text, kind), now).message == ZERO_MESSAGE
  {
    assert !NewMessage(userId, username, text, kind).timestamp.parses;
  }
}
