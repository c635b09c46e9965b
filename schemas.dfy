/**
 * The shared request schemas, as the issue lists their parse reports. The
 * schema library (version 3 semantics) runs every string check of a field
 * and every key of an object, so all failing rules are reported, in
 * declaration order; an object-level refinement still runs after field checks
 * fail, but not after a key is missing (a missing key aborts the object).
 * Each schema here is a function of the fields it reads; inputs the runtime
 * would coerce with `Number` are restricted to digit strings.
 */
module Schemas {
  import opened Wrappers
  import opened Json
  import opened Strings
  import opened Zod
  import opened Responses

  // Issue codes of the schema library.
  const TOO_SMALL := "too_small"
  const TOO_BIG := "too_big"
  const INVALID_STRING := "invalid_string"
  const INVALID_TYPE := "invalid_type"
  const INVALID_ENUM_VALUE := "invalid_enum_value"
  const CUSTOM := "custom"

  /** An issue on a top-level field. */
  function Issue(field: string, message: string, code: string): (i: ZodIssue)
    ensures i.path == [Key(field)] && i.message == message && i.code == code && i.received.None?
  {
    ZodIssue([Key(field)], message, code, None)
  }

  /** The issue for a required field that is absent; its received type name is "undefined". */
  function Required(field: string): (i: ZodIssue)
    ensures i.path == [Key(field)] && i.message == "Required" && i.code == INVALID_TYPE
    ensures i.received == Some(JString("undefined"))
  {
    ZodIssue([Key(field)], "Required", INVALID_TYPE, Some(JString("undefined")))
  }

  /** One issue when the rule fails, none otherwise. */
  function When(fails: bool, issue: ZodIssue): (issues: seq<ZodIssue>)
    ensures fails ==> issues == [issue]
    ensures !fails ==> issues == []
  {
    if fails then [issue] else []
  }

  /** The messages of an issue list, in order. */
  function Messages(issues: seq<ZodIssue>): (ms: seq<string>)
    ensures |ms| == |issues|
    ensures forall k :: 0 <= k < |issues| ==> ms[k] == issues[k].message
  {
    seq(|issues|, k requires 0 <= k < |issues| => issues[k].message)
  }

  lemma MessagesAppend(a: seq<ZodIssue>, b: seq<ZodIssue>)
    ensures Messages(a + b) == Messages(a) + Messages(b)
  {
    assert forall k :: 0 <= k < |a + b| ==> (a + b)[k] == if k < |a| then a[k] else b[k - |a|];
  }

  lemma MessagesWhen(fails: bool, issue: ZodIssue)
    ensures Messages(When(fails, issue)) == if fails then [issue.message] else []
  {
  }

  // ---------------------------------------------------------------- password

  const PASSWORD_TOO_SHORT := "Password must be at least 8 characters"
  const PASSWORD_NO_UPPERCASE := "Password must contain at least one uppercase letter"
  const PASSWORD_NO_LOWERCASE := "Password must contain at least one lowercase letter"
  const PASSWORD_NO_DIGIT := "Password must contain at least one number"
  const PASSWORDS_DIFFER := "Passwords do not match"

  /** The password-related messages are pairwise different. */
  lemma PasswordMessagesDistinct()
    ensures PASSWORD_TOO_SHORT != PASSWORD_NO_UPPERCASE && PASSWORD_TOO_SHORT != PASSWORD_NO_LOWERCASE
    ensures PASSWORD_TOO_SHORT != PASSWORD_NO_DIGIT && PASSWORD_NO_UPPERCASE != PASSWORD_NO_LOWERCASE
    ensures PASSWORD_NO_UPPERCASE != PASSWORD_NO_DIGIT && PASSWORD_NO_LOWERCASE != PASSWORD_NO_DIGIT
    ensures PASSWORDS_DIFFER !in {PASSWORD_TOO_SHORT, PASSWORD_NO_UPPERCASE, PASSWORD_NO_LOWERCASE, PASSWORD_NO_DIGIT, "Required"}
  {
    assert |PASSWORD_TOO_SHORT| == 38 && |PASSWORD_NO_UPPERCASE| == 51 && |PASSWORD_NO_LOWERCASE| == 51;
    assert |PASSWORD_NO_DIGIT| == 41 && |PASSWORDS_DIFFER| == 22 && |"Required"| == 8;
    assert PASSWORD_NO_UPPERCASE[35] == 'u' && PASSWORD_NO_LOWERCASE[35] == 'l';
  }

  predicate HasUppercase(s: string) { exists i :: 0 <= i < |s| && 'A' <= s[i] <= 'Z' }
  predicate HasLowercase(s: string) { exists i :: 0 <= i < |s| && 'a' <= s[i] <= 'z' }
  predicate HasDigit(s: string) { exists i :: 0 <= i < |s| && IsDigit(s[i]) }

  /**
   * The strength rule: a JavaScript length (UTF-16 code units) of at least 8,
   * with an ASCII uppercase letter, a lowercase letter and a digit.
   */
  predicate IsStrongPassword(s: string) {
    Utf16Length(s) >= 8 && HasUppercase(s) && HasLowercase(s) && HasDigit(s)
  }

  /** `passwordSchema` on a present string: the issues of the failing rules, in rule order. */
  function PasswordIssues(field: string, p: string): (issues: seq<ZodIssue>)
    ensures issues == [] <==> IsStrongPassword(p)
    ensures Utf16Length(p) < 8 ==> issues[0] == Issue(field, PASSWORD_TOO_SHORT, TOO_SMALL)
  {
    When(Utf16Length(p) < 8, Issue(field, PASSWORD_TOO_SHORT, TOO_SMALL))
    + When(!HasUppercase(p), Issue(field, PASSWORD_NO_UPPERCASE, INVALID_STRING))
    + When(!HasLowercase(p), Issue(field, PASSWORD_NO_LOWERCASE, INVALID_STRING))
    + When(!HasDigit(p), Issue(field, PASSWORD_NO_DIGIT, INVALID_STRING))
  }

  /** With four distinct messages, each one is among those of the raised flags exactly when its flag is raised. */
  lemma FlaggedMessages(f1: bool, f2: bool, f3: bool, f4: bool, m1: string, m2: string, m3: string, m4: string)
    requires m1 != m2 && m1 != m3 && m1 != m4 && m2 != m3 && m2 != m4 && m3 != m4
    ensures var ms := (if f1 then [m1] else []) + (if f2 then [m2] else []) + (if f3 then [m3] else [])
                      + (if f4 then [m4] else []);
      (m1 in ms <==> f1) && (m2 in ms <==> f2) && (m3 in ms <==> f3) && (m4 in ms <==> f4)
  {
  }

  /** The messages of the password issues: one per failing rule, in rule order. */
  lemma PasswordMessages(field: string, p: string)
    ensures Messages(PasswordIssues(field, p)) ==
      (if Utf16Length(p) < 8 then [PASSWORD_TOO_SHORT] else []) + (if !HasUppercase(p) then [PASSWORD_NO_UPPERCASE] else [])
      + (if !HasLowercase(p) then [PASSWORD_NO_LOWERCASE] else []) + (if !HasDigit(p) then [PASSWORD_NO_DIGIT] else [])
  {
    var a := When(Utf16Length(p) < 8, Issue(field, PASSWORD_TOO_SHORT, TOO_SMALL));
    var b := When(!HasUppercase(p), Issue(field, PASSWORD_NO_UPPERCASE, INVALID_STRING));
    var c := When(!HasLowercase(p), Issue(field, PASSWORD_NO_LOWERCASE, INVALID_STRING));
    var d := When(!HasDigit(p), Issue(field, PASSWORD_NO_DIGIT, INVALID_STRING));
    MessagesWhen(Utf16Length(p) < 8, Issue(field, PASSWORD_TOO_SHORT, TOO_SMALL));
    MessagesWhen(!HasUppercase(p), Issue(field, PASSWORD_NO_UPPERCASE, INVALID_STRING));
    MessagesWhen(!HasLowercase(p), Issue(field, PASSWORD_NO_LOWERCASE, INVALID_STRING));
    MessagesWhen(!HasDigit(p), Issue(field, PASSWORD_NO_DIGIT, INVALID_STRING));
    MessagesAppend(a, b);
    MessagesAppend(a + b, c);
    MessagesAppend(a + b + c, d);
  }

  /** Every password issue is on the password's own field. */
  lemma PasswordIssuesOnField(field: string, p: string)
    ensures forall k :: 0 <= k < |PasswordIssues(field, p)| ==> PasswordIssues(field, p)[k].path == [Key(field)]
  {
    var issues := PasswordIssues(field, p);
    forall k | 0 <= k < |issues| ensures issues[k].path == [Key(field)] {
      var a := When(Utf16Length(p) < 8, Issue(field, PASSWORD_TOO_SHORT, TOO_SMALL));
      var b := When(!HasUppercase(p), Issue(field, PASSWORD_NO_UPPERCASE, INVALID_STRING));
      var c := When(!HasLowercase(p), Issue(field, PASSWORD_NO_LOWERCASE, INVALID_STRING));
      var d := When(!HasDigit(p), Issue(field, PASSWORD_NO_DIGIT, INVALID_STRING));
      assert issues == a + b + c + d;
      assert issues[k] in a || issues[k] in b || issues[k] in c || issues[k] in d;
    }
  }

  /** Each rule of the password schema is reported exactly when it fails. */
  lemma PasswordIssuesPerRule(field: string, p: string)
    ensures var issues := PasswordIssues(field, p);
      && (Utf16Length(p) < 8 <==> PASSWORD_TOO_SHORT in Messages(issues))
      && (!HasUppercase(p) <==> PASSWORD_NO_UPPERCASE in Messages(issues))
      && (!HasLowercase(p) <==> PASSWORD_NO_LOWERCASE in Messages(issues))
      && (!HasDigit(p) <==> PASSWORD_NO_DIGIT in Messages(issues))
  {
    PasswordMessagesDistinct();
    PasswordMessages(field, p);
    FlaggedMessages(Utf16Length(p) < 8, !HasUppercase(p), !HasLowercase(p), !HasDigit(p),
                    PASSWORD_TOO_SHORT, PASSWORD_NO_UPPERCASE, PASSWORD_NO_LOWERCASE, PASSWORD_NO_DIGIT);
  }

  /** The password issues are on the password's field, and none of them is the mismatch message. */
  lemma PasswordIssuesNeverMismatch(field: string, p: string)
    ensures var issues := PasswordIssues(field, p);
      forall k :: 0 <= k < |issues| ==> issues[k].path == [Key(field)] && issues[k].message != PASSWORDS_DIFFER
  {
    var issues := PasswordIssues(field, p);
    var ms := Messages(issues);
    PasswordMessagesDistinct();
    PasswordMessages(field, p);
    PasswordIssuesOnField(field, p);
    forall k | 0 <= k < |issues| ensures issues[k].message != PASSWORDS_DIFFER {
      assert issues[k].message == ms[k] && ms[k] in ms;
    }
  }

  /** A long enough password with all three kinds of character is accepted. */
  lemma StrongPasswordSample()
    ensures PasswordIssues("password", "Password1") == []
  {
    var p := "Password1";
    assert !(Utf16Length(p) < 8);
    assert HasUppercase(p) && HasLowercase(p) && HasDigit(p) by {
      assert p[0] == 'P' && p[1] == 'a' && p[8] == '1';
    }
  }

  /**
   * The length rule counts UTF-16 code units: four characters and two emoji
   * make a length of 8, so this password is accepted although it has six characters.
   */
  lemma AstralCharactersCountTwice()
    ensures var p := "Abc1\U{1F600}\U{1F600}";
      |p| == 6 && Utf16Length(p) == 8 && PasswordIssues("password", p) == []
  {
    var p := "Abc1\U{1F600}\U{1F600}";
    assert p[0] == 'A' && p[1] == 'b' && p[3] == '1';
    assert p[1..][1..][1..][1..][1..][1..] == [];
    assert Utf16Length(p[1..][1..][1..][1..]) == 4;
  }

  /** A long enough password with both cases of letter but no digit, such as "Passwords", reports the missing digit alone. */
  lemma OnlyDigitMissing(field: string, p: string)
    requires Utf16Length(p) >= 8 && HasUppercase(p) && HasLowercase(p) && !HasDigit(p)
    ensures Messages(PasswordIssues(field, p)) == [PASSWORD_NO_DIGIT]
  {
    PasswordMessages(field, p);
  }

  /** A short password reports its length first, then each missing kind of character in rule order. */
  lemma ShortPasswordSample()
    ensures Messages(PasswordIssues("password", "abc")) ==
      [PASSWORD_TOO_SHORT, PASSWORD_NO_UPPERCASE, PASSWORD_NO_DIGIT]
  {
    var abc := "abc";
    assert abc[0] == 'a';
    assert !HasDigit(abc) && !HasUppercase(abc) by {
      forall i | 0 <= i < |abc| ensures !IsDigit(abc[i]) && !('A' <= abc[i] <= 'Z') { }
    }
    PasswordMessages("password", abc);
  }

  // ---------------------------------------------------------------- identifiers

  predicate IsHexDigit(c: char) { '0' <= c <= '9' || 'a' <= c <= 'f' || 'A' <= c <= 'F' }

  /** `/^[0-9a-fA-F]{24}$/`. */
  predicate IsMongoId(s: string) { |s| == 24 && forall i :: 0 <= i < |s| ==> IsHexDigit(s[i]) }

  const INVALID_MONGO_ID := "Invalid MongoDB ObjectId"

  function MongoIdIssues(field: string, s: string): (issues: seq<ZodIssue>)
    ensures issues == [] <==> IsMongoId(s)
    ensures issues != [] ==> issues == [Issue(field, INVALID_MONGO_ID, INVALID_STRING)]
  {
    When(!IsMongoId(s), Issue(field, INVALID_MONGO_ID, INVALID_STRING))
  }

  function HexChar(d: nat): (c: char)
    requires d < 16
    ensures IsHexDigit(c) && !('A' <= c <= 'F')
  {
    if d < 10 then DigitChar(d) else (('a' as int) + d - 10) as char
  }

  /** The usual rendering of bytes as hexadecimal text, two lowercase digits per byte. */
  function HexOfBytes(bytes: seq<nat>): (s: string)
    requires forall i :: 0 <= i < |bytes| ==> bytes[i] < 256
  {
    if |bytes| == 0 then ""
    else [HexChar(bytes[0] / 16), HexChar(bytes[0] % 16)] + HexOfBytes(bytes[1..])
  }

  lemma {:induction false} HexOfBytesShape(bytes: seq<nat>)
    requires forall i :: 0 <= i < |bytes| ==> bytes[i] < 256
    ensures |HexOfBytes(bytes)| == 2 * |bytes|
    ensures forall i :: 0 <= i < |HexOfBytes(bytes)| ==> IsHexDigit(HexOfBytes(bytes)[i])
  {
    if |bytes| > 0 {
      HexOfBytesShape(bytes[1..]);
      var head := [HexChar(bytes[0] / 16), HexChar(bytes[0] % 16)];
      var s := HexOfBytes(bytes);
      assert s == head + HexOfBytes(bytes[1..]);
      forall i | 0 <= i < |s| ensures IsHexDigit(s[i]) {
        if i >= 2 { assert s[i] == HexOfBytes(bytes[1..])[i - 2]; }
      }
    }
  }

  /** Every 12-byte object id, written out as hexadecimal, is accepted. */
  lemma ObjectIdTextAccepted(field: string, bytes: seq<nat>)
    requires |bytes| == 12 && forall i :: 0 <= i < |bytes| ==> bytes[i] < 256
    ensures MongoIdIssues(field, HexOfBytes(bytes)) == []
  {
    HexOfBytesShape(bytes);
  }

  const ID_NOT_NUMERIC := "ID must be numeric"

  /** `numericIdSchema`: a non-empty string of ASCII digits, turned into its number. */
  function NumericId(field: string, s: string): (r: Result<nat, seq<ZodIssue>>)
    ensures r.Ok? <==> |s| >= 1 && AllDigits(s)
    ensures r.Ok? ==> r.value == DecimalValue(s)
    ensures r.Err? ==> r.error == [Issue(field, ID_NOT_NUMERIC, INVALID_STRING)]
  {
    if |s| >= 1 && AllDigits(s) then Ok(DecimalValue(s))
    else Err([Issue(field, ID_NOT_NUMERIC, INVALID_STRING)])
  }

  /** Every number, written in decimal, is accepted and read back as itself. */
  lemma NumericIdRoundTrip(field: string, n: nat)
    ensures NumericId(field, NatToString(n)) == Ok(n)
  {
    DecimalOfNatToString(n);
  }

  /** An accepted id without a leading zero is the decimal rendering of its number. */
  lemma NumericIdCanonical(field: string, s: string)
    requires NumericId(field, s).Ok? && s[0] != '0'
    ensures NatToString(NumericId(field, s).value) == s
  {
    NatToStringOfDecimal(s);
  }

  // ---------------------------------------------------------------- phone and authorization

  /** The characters of `\s` in a regular expression. */
  predicate IsRegexSpace(c: char) {
    c == '\t' || c == '\n' || c == '\U{000B}' || c == '\U{000C}' || c == '\r' || c == ' '
    || c == '\U{00A0}' || c == '\U{1680}' || ('\U{2000}' <= c <= '\U{200A}')
    || c == '\U{2028}' || c == '\U{2029}' || c == '\U{202F}' || c == '\U{205F}'
    || c == '\U{3000}' || c == '\U{FEFF}'
  }

  predicate IsPhoneChar(c: char) { IsDigit(c) || IsRegexSpace(c) || c == '-' || c == '(' || c == ')' }

  predicate AllPhoneChars(s: string) { forall i :: 0 <= i < |s| ==> IsPhoneChar(s[i]) }

  /** `/^\+?[\d\s\-\(\)]+$/`: an optional leading plus, then one or more phone characters. */
  predicate IsPhoneNumber(s: string) {
    (|s| >= 1 && AllPhoneChars(s)) || (|s| >= 2 && s[0] == '+' && AllPhoneChars(s[1..]))
  }

  const INVALID_PHONE := "Invalid phone number format"

  function PhoneIssues(field: string, s: string): (issues: seq<ZodIssue>)
    ensures issues == [] <==> IsPhoneNumber(s)
    ensures issues != [] ==> issues == [Issue(field, INVALID_PHONE, INVALID_STRING)]
  {
    When(!IsPhoneNumber(s), Issue(field, INVALID_PHONE, INVALID_STRING))
  }

  /** The plus is optional once, never alone and never repeated. */
  lemma PhonePlusRule(field: string, s: string)
    requires |s| >= 1 && AllPhoneChars(s)
    ensures PhoneIssues(field, s) == [] && PhoneIssues(field, "+" + s) == []
    ensures PhoneIssues(field, "+") != [] && PhoneIssues(field, "++" + s) != []
  {
    assert ("+" + s)[1..] == s;
    var t := "++" + s;
    assert !IsPhoneChar(t[0]) && !IsPhoneChar(t[1..][0]);
  }

  /** `.` in a regular expression matches any character but these. */
  predicate IsLineTerminator(c: char) { c == '\n' || c == '\r' || c == '\U{2028}' || c == '\U{2029}' }

  /** `/^Bearer .+/`: the scheme, one space, then at least one character that is not a line break. */
  predicate IsBearerHeader(s: string) {
    StartsWith(s, "Bearer ") && |s| > 7 && !IsLineTerminator(s[7])
  }

  const AUTH_NOT_BEARER := "Authorization header must be in Bearer format"

  /** `authHeaderSchema` on the `authorization` header, absent or present. */
  function AuthHeaderIssues(authorization: Option<string>): (issues: seq<ZodIssue>)
    ensures issues == [] <==> authorization.Some? && IsBearerHeader(authorization.value)
    ensures authorization.None? ==> issues == [Required("authorization")]
    ensures authorization.Some? && issues != [] ==>
      issues == [Issue("authorization", AUTH_NOT_BEARER, INVALID_STRING)]
  {
    if authorization.None? then [Required("authorization")]
    else When(!IsBearerHeader(authorization.value), Issue("authorization", AUTH_NOT_BEARER, INVALID_STRING))
  }

  /** Any token is accepted after the scheme, while the bare scheme and other capitalisations are not. */
  lemma BearerHeaders(token: string)
    requires |token| >= 1 && !IsLineTerminator(token[0])
    ensures AuthHeaderIssues(Some("Bearer " + token)) == []
    ensures AuthHeaderIssues(Some("Bearer ")) != []
    ensures AuthHeaderIssues(Some("bearer " + token)) != []
  {
    var s := "Bearer " + token;
    assert s[..7] == "Bearer ";
    assert s[7] == token[0];
    var t := "bearer " + token;
    assert t[0] == 'b';
  }

  // ---------------------------------------------------------------- pagination and search

  datatype SortOrder = Asc | Desc

  /** The parsed query: numbers for page and limit, an order, the optional sort key. */
  datatype Pagination = Pagination(page: nat, limit: nat, sort: Option<string>, order: SortOrder)

  const PAGE_NOT_POSITIVE := "Page must be greater than 0"
  const LIMIT_OUT_OF_RANGE := "Limit must be between 1 and 100"

  /** The library's message for a value outside `["asc", "desc"]`. */
  function OrderMessage(received: string): string {
    "Invalid enum value. Expected 'asc' | 'desc', received '" + received + "'"
  }

  /** A query parameter as `Number` reads it, with its default when absent. */
  function NumberOr(param: Option<string>, default: nat): nat
    requires param.Some? ==> AllDigits(param.value)
  {
    if param.Some? then DecimalValue(param.value) else default
  }

  function ParseOrder(order: Option<string>): Option<SortOrder> {
    if order.None? || order == Some("asc") then Some(Asc)
    else if order == Some("desc") then Some(Desc)
    else None
  }

  /** The issue of the `page` key: a number that is not positive. */
  function PageIssues(page: Option<string>): (issues: seq<ZodIssue>)
    requires page.Some? ==> AllDigits(page.value)
    ensures |issues| <= 1
    ensures forall k :: 0 <= k < |issues| ==> issues[k].path == [Key("page")]
  {
    When(NumberOr(page, 1) == 0, Issue("page", PAGE_NOT_POSITIVE, CUSTOM))
  }

  /** The issue of the `limit` key: a number outside 1 to 100. */
  function LimitIssues(limit: Option<string>): (issues: seq<ZodIssue>)
    requires limit.Some? ==> AllDigits(limit.value)
    ensures |issues| <= 1
    ensures forall k :: 0 <= k < |issues| ==> issues[k].path == [Key("limit")]
  {
    When(!(0 < NumberOr(limit, 10) <= 100), Issue("limit", LIMIT_OUT_OF_RANGE, CUSTOM))
  }

  /** The issue of the `order` key: a value that is neither "asc" nor "desc", reported with what was received. */
  function OrderIssues(order: Option<string>): (issues: seq<ZodIssue>)
    ensures issues == [] <==> ParseOrder(order).Some?
    ensures issues != [] ==> order.Some?
    ensures issues != [] ==>
      issues == [ZodIssue([Key("order")], OrderMessage(order.value), INVALID_ENUM_VALUE, Some(JString(order.value)))]
  {
    if ParseOrder(order).None?
    then [ZodIssue([Key("order")], OrderMessage(order.value), INVALID_ENUM_VALUE, Some(JString(order.value)))]
    else []
  }

  /** The issues of the pagination keys, in key order: page, limit, (sort never fails), order. */
  function PaginationIssues(page: Option<string>, limit: Option<string>, order: Option<string>): seq<ZodIssue>
    requires page.Some? ==> AllDigits(page.value)
    requires limit.Some? ==> AllDigits(limit.value)
  {
    PageIssues(page) + LimitIssues(limit) + OrderIssues(order)
  }

  /** The order is accepted exactly when it is absent, "asc" or "desc", and only "desc" reads as descending. */
  lemma OrderAccepted(order: Option<string>)
    ensures ParseOrder(order).Some? <==> order.None? || order == Some("asc") || order == Some("desc")
    ensures ParseOrder(order) == Some(Desc) <==> order == Some("desc")
  {
    assert |"asc"| != |"desc"|;
  }

  /** The pagination query has no issue exactly when every key's rule holds. */
  lemma PaginationAccepted(page: Option<string>, limit: Option<string>, order: Option<string>)
    requires page.Some? ==> AllDigits(page.value)
    requires limit.Some? ==> AllDigits(limit.value)
    ensures |PaginationIssues(page, limit, order)| == 0 <==>
      && (page.None? || DecimalValue(page.value) > 0)
      && (limit.None? || 0 < DecimalValue(limit.value) <= 100)
      && (order.None? || order == Some("asc") || order == Some("desc"))
  {
    var p, l, o := PageIssues(page), LimitIssues(limit), OrderIssues(order);
    assert |p + l + o| == |p| + |l| + |o|;
    OrderAccepted(order);
  }

  /** `paginationQuerySchema` on the four query parameters. */
  function ParsePagination(page: Option<string>, limit: Option<string>, sort: Option<string>, order: Option<string>)
    : (r: Result<Pagination, seq<ZodIssue>>)
    requires page.Some? ==> AllDigits(page.value)
    requires limit.Some? ==> AllDigits(limit.value)
    ensures r.Ok? <==>
      && (page.None? || DecimalValue(page.value) > 0)
      && (limit.None? || 0 < DecimalValue(limit.value) <= 100)
      && (order.None? || order == Some("asc") || order == Some("desc"))
    ensures r.Ok? ==> r.value == Pagination(if page.Some? then DecimalValue(page.value) else 1,
                                            if limit.Some? then DecimalValue(limit.value) else 10,
                                            sort, if order == Some("desc") then Desc else Asc)
    ensures r.Ok? ==> 1 <= r.value.page && 1 <= r.value.limit <= 100
    ensures r.Err? ==> r.error == PaginationIssues(page, limit, order) && |r.error| >= 1
  {
    var issues := PaginationIssues(page, limit, order);
    PaginationAccepted(page, limit, order);
    if |issues| == 0 then
      OrderAccepted(order);
      Ok(Pagination(NumberOr(page, 1), NumberOr(limit, 10), sort, ParseOrder(order).value))
    else Err(issues)
  }

  /** The order message is longer than the two fixed pagination messages, so it differs from both. */
  lemma OrderMessageDistinct(received: string)
    ensures OrderMessage(received) != PAGE_NOT_POSITIVE && OrderMessage(received) != LIMIT_OUT_OF_RANGE
    ensures PAGE_NOT_POSITIVE != LIMIT_OUT_OF_RANGE
  {
    assert |PAGE_NOT_POSITIVE| == 27 && |LIMIT_OUT_OF_RANGE| == 31;
    assert |OrderMessage(received)| > 31;
  }

  /** The page and limit messages each appear exactly when their rule fails. */
  lemma PaginationMessagesPerKey(page: Option<string>, limit: Option<string>, order: Option<string>)
    requires page.Some? ==> AllDigits(page.value)
    requires limit.Some? ==> AllDigits(limit.value)
    ensures var ms := Messages(PaginationIssues(page, limit, order));
      && (PAGE_NOT_POSITIVE in ms <==> page.Some? && DecimalValue(page.value) == 0)
      && (LIMIT_OUT_OF_RANGE in ms <==> limit.Some? && !(0 < DecimalValue(limit.value) <= 100))
  {
    var p, l, o := PageIssues(page), LimitIssues(limit), OrderIssues(order);
    MessagesWhen(NumberOr(page, 1) == 0, Issue("page", PAGE_NOT_POSITIVE, CUSTOM));
    MessagesWhen(!(0 < NumberOr(limit, 10) <= 100), Issue("limit", LIMIT_OUT_OF_RANGE, CUSTOM));
    MessagesAppend(p, l);
    MessagesAppend(p + l, o);
    var m3 := OrderMessage(if order.Some? then order.value else "");
    OrderMessageDistinct(if order.Some? then order.value else "");
    assert Messages(o) == if o == [] then [] else [m3];
    FlaggedMessages(NumberOr(page, 1) == 0, !(0 < NumberOr(limit, 10) <= 100), o != [], false,
                    PAGE_NOT_POSITIVE, LIMIT_OUT_OF_RANGE, m3, "");
  }

  /** An unknown order is reported last, on the `order` key, with the received value; otherwise no issue is on that key. */
  lemma OrderIssueIsLast(page: Option<string>, limit: Option<string>, order: Option<string>)
    requires page.Some? ==> AllDigits(page.value)
    requires limit.Some? ==> AllDigits(limit.value)
    ensures var issues := PaginationIssues(page, limit, order);
      && (order.Some? && order.value !in {"asc", "desc"} <==>
            |issues| > 0 && issues[|issues| - 1].path == [Key("order")])
      && (|issues| > 0 && issues[|issues| - 1].path == [Key("order")] ==>
            issues[|issues| - 1].received == Some(JString(order.value)))
  {
    var p, l, o := PageIssues(page), LimitIssues(limit), OrderIssues(order);
    var issues := p + l + o;
    OrderAccepted(order);
    assert "order"[0] != "page"[0] && "order"[0] != "limit"[0];
    if o == [] && |issues| > 0 {
      var last := issues[|issues| - 1];
      assert last in p + l;
      assert last.path == [Key("page")] || last.path == [Key("limit")];
    }
  }

  /** With no parameters at all the query is page 1 of 10, ascending. */
  lemma PaginationDefaults()
    ensures ParsePagination(None, None, None, None) == Ok(Pagination(1, 10, None, Asc))
  {
  }

  /** Any accepted query can be paginated, and it never asks for more pages than there are items. */
  lemma AcceptedPaginationMeta(page: Option<string>, limit: Option<string>, sort: Option<string>,
                               order: Option<string>, total: nat)
    requires page.Some? ==> AllDigits(page.value)
    requires limit.Some? ==> AllDigits(limit.value)
    requires ParsePagination(page, limit, sort, order).Ok?
    ensures var q := ParsePagination(page, limit, sort, order).value;
      q.limit > 0 && CreatePaginationMeta(q.page, q.limit, total).totalPages <= total
      && CreatePaginationMeta(q.page, q.limit, total).hasPrev == (q.page > 1)
  {
    var q := ParsePagination(page, limit, sort, order).value;
    TotalPagesAtMostTotal(q.page, q.limit, total);
  }

  datatype SearchQuery = SearchQuery(q: string, pagination: Pagination)

  const SEARCH_QUERY_REQUIRED := "Search query is required"

  /** The issues of the search term alone: absent, or present but empty. */
  function SearchTermIssues(q: Option<string>): (issues: seq<ZodIssue>)
    ensures issues == [] <==> q.Some? && q.value != ""
    ensures q.None? ==> issues == [Required("q")]
    ensures q == Some("") ==> issues == [Issue("q", SEARCH_QUERY_REQUIRED, TOO_SMALL)]
  {
    if q.None? then [Required("q")] else When(q.value == "", Issue("q", SEARCH_QUERY_REQUIRED, TOO_SMALL))
  }

  /** `searchQuerySchema`: a non-empty `q` first, then all of the pagination keys. */
  function ParseSearch(q: Option<string>, page: Option<string>, limit: Option<string>, sort: Option<string>,
                       order: Option<string>): (r: Result<SearchQuery, seq<ZodIssue>>)
    requires page.Some? ==> AllDigits(page.value)
    requires limit.Some? ==> AllDigits(limit.value)
    ensures r.Ok? <==> q.Some? && q.value != "" && ParsePagination(page, limit, sort, order).Ok?
    ensures r.Ok? ==> r.value == SearchQuery(q.value, ParsePagination(page, limit, sort, order).value)
    ensures r.Err? ==> r.error == SearchTermIssues(q) + PaginationIssues(page, limit, order)
  {
    var issues := SearchTermIssues(q) + PaginationIssues(page, limit, order);
    if issues == [] then Ok(SearchQuery(q.value, ParsePagination(page, limit, sort, order).value))
    else Err(issues)
  }

  // ---------------------------------------------------------------- uploads

  const MAX_IMAGE_SIZE := 5 * 1024 * 1024

  datatype Upload = Upload(filename: string, mimetype: string, size: int)

  /** `fileUploadSchema`: a filename, a MIME type and a positive size. */
  function FileUploadIssues(u: Upload): (issues: seq<ZodIssue>)
    ensures issues == [] <==> u.filename != "" && u.mimetype != "" && u.size > 0
  {
    When(u.filename == "", Issue("filename", "Filename is required", TOO_SMALL))
    + When(u.mimetype == "", Issue("mimetype", "MIME type is required", TOO_SMALL))
    + When(u.size <= 0, Issue("size", "File size must be positive", TOO_SMALL))
  }

  /**
   * `imageUploadSchema`: `extend` replaces the MIME type and size rules of the
   * file schema, so the type must start with "image/" and the size is only capped.
   */
  function ImageUploadIssues(u: Upload): (issues: seq<ZodIssue>)
    ensures issues == [] <==> u.filename != "" && StartsWith(u.mimetype, "image/") && u.size <= MAX_IMAGE_SIZE
    ensures u.size > MAX_IMAGE_SIZE ==> issues[|issues| - 1] == Issue("size", "Image size must be less than 5MB", TOO_BIG)
  {
    When(u.filename == "", Issue("filename", "Filename is required", TOO_SMALL))
    + When(!StartsWith(u.mimetype, "image/"), Issue("mimetype", "File must be an image", INVALID_STRING))
    + When(u.size > MAX_IMAGE_SIZE, Issue("size", "Image size must be less than 5MB", TOO_BIG))
  }

  /**
   * The image schema accepts a size the file schema rejects (any size up to
   * zero), and it accepts exactly 5 MiB although its message says "less than".
   */
  lemma ImageSizeRule(filename: string, size: int)
    requires filename != "" && size <= 0
    ensures ImageUploadIssues(Upload(filename, "image/png", size)) == []
    ensures FileUploadIssues(Upload(filename, "image/png", size)) != []
    ensures ImageUploadIssues(Upload(filename, "image/png", MAX_IMAGE_SIZE)) == []
    ensures ImageUploadIssues(Upload(filename, "image/png", MAX_IMAGE_SIZE + 1)) != []
  {
    assert "image/png"[..6] == "image/";
  }

  /** Every accepted image is an accepted file, except for its size. */
  lemma ImageImpliesFileExceptSize(u: Upload)
    requires ImageUploadIssues(u) == [] && u.size > 0
    ensures FileUploadIssues(u) == []
  {
  }

  // ---------------------------------------------------------------- password forms

  
  /** No issue of `issues` carries the message `m`. */
  predicate Avoids(issues: seq<ZodIssue>, m: string) {
    forall k :: 0 <= k < |issues| ==> issues[k].message != m
  }

  lemma AvoidsAppend(a: seq<ZodIssue>, b: seq<ZodIssue>, m: string)
    requires Avoids(a, m) && Avoids(b, m)
    ensures Avoids(a + b, m)
  {
    forall k | 0 <= k < |a + b| ensures (a + b)[k].message != m {
      if k >= |a| {
        assert (a + b)[k] == b[k - |a|];
      }
    }
  }

  /** A required non-empty string field. */
  function RequiredString(field: string, value: Option<string>, message: string): (issues: seq<ZodIssue>)
    ensures issues == [] <==> value.Some? && value.value != ""
    ensures forall k :: 0 <= k < |issues| ==> issues[k].message in {"Required", message}
  {
    if value.None? then [Required(field)] else When(value.value == "", Issue(field, message, TOO_SMALL))
  }

  /** A required field under the password strength rule. */
  function PasswordField(field: string, value: Option<string>): (issues: seq<ZodIssue>)
    ensures issues == [] <==> value.Some? && IsStrongPassword(value.value)
    ensures forall k :: 0 <= k < |issues| ==> issues[k].message != PASSWORDS_DIFFER
  {
    assert |"Required"| != |PASSWORDS_DIFFER|;
    if value.None? then [Required(field)]
    else
      PasswordIssuesNeverMismatch(field, value.value);
      PasswordIssues(field, value.value)
  }

  /** The accepted form: the leading credential (current password or reset token) and the new password. */
  datatype PasswordForm = PasswordForm(credential: string, password: string)

  /** The field issues of a password form, in key order; none of them is the mismatch. */
  function PasswordFormFieldIssues(credentialField: string, credentialMessage: string, passwordField: string,
                                   credential: Option<string>, password: Option<string>, confirm: Option<string>)
    : (issues: seq<ZodIssue>)
    requires credentialMessage != PASSWORDS_DIFFER
    ensures issues == [] <==>
      && credential.Some? && credential.value != ""
      && password.Some? && IsStrongPassword(password.value)
      && confirm.Some? && confirm.value != ""
    ensures forall k :: 0 <= k < |issues| ==> issues[k].message != PASSWORDS_DIFFER
  {
    var a := RequiredString(credentialField, credential, credentialMessage);
    var b := PasswordField(passwordField, password);
    var c := RequiredString("confirmPassword", confirm, "Password confirmation is required");
    assert |"Required"| != |PASSWORDS_DIFFER| && |"Password confirmation is required"| != |PASSWORDS_DIFFER|;
    AvoidsAppend(a, b, PASSWORDS_DIFFER);
    AvoidsAppend(a + b, c, PASSWORDS_DIFFER);
    a + b + c
  }

  /**
   * The change- and reset-password schemas: a required credential, a strong
   * password and a confirmation, then the refinement that the two agree,
   * reported last, on `confirmPassword`; the refinement does not run when a key is missing.
   */
  function ParsePasswordForm(credentialField: string, credentialMessage: string, passwordField: string,
                             credential: Option<string>, password: Option<string>, confirm: Option<string>)
    : (r: Result<PasswordForm, seq<ZodIssue>>)
    requires credentialMessage != PASSWORDS_DIFFER
    ensures r.Ok? <==>
      && credential.Some? && credential.value != ""
      && password.Some? && IsStrongPassword(password.value)
      && confirm.Some? && confirm.value != "" && password.value == confirm.value
    ensures r.Ok? ==> r.value == PasswordForm(credential.value, password.value)
    ensures r.Err? ==> |r.error| > 0
    ensures credential.Some? && password.Some? && confirm.Some? ==>
      (password.value != confirm.value <==>
         r.Err? && r.error[|r.error| - 1] == Issue("confirmPassword", PASSWORDS_DIFFER, CUSTOM))
    ensures credential.None? || password.None? || confirm.None? ==>
      r.Err? && forall k :: 0 <= k < |r.error| ==> r.error[k].message != PASSWORDS_DIFFER
  {
    var fields := PasswordFormFieldIssues(credentialField, credentialMessage, passwordField, credential, password, confirm);
    var aborted := credential.None? || password.None? || confirm.None?;
    var differ := !aborted && password.value != confirm.value;
    var issues := fields + When(differ, Issue("confirmPassword", PASSWORDS_DIFFER, CUSTOM));
    assert differ ==> issues[|issues| - 1] == Issue("confirmPassword", PASSWORDS_DIFFER, CUSTOM);
    assert !differ ==> issues == fields;
    if |issues| == 0 then Ok(PasswordForm(credential.value, password.value)) else Err(issues)
  }

  const CURRENT_PASSWORD_REQUIRED := "Current password is required"
  const RESET_TOKEN_REQUIRED := "Reset token is required"

  function ParseChangePassword(currentPassword: Option<string>, newPassword: Option<string>, confirmPassword: Option<string>)
    : (r: Result<PasswordForm, seq<ZodIssue>>)
    ensures r == ParsePasswordForm("currentPassword", CURRENT_PASSWORD_REQUIRED, "newPassword",
                                   currentPassword, newPassword, confirmPassword)
    ensures r.Ok? ==> newPassword == confirmPassword && IsStrongPassword(newPassword.value)
  {
    ParsePasswordForm("currentPassword", CURRENT_PASSWORD_REQUIRED, "newPassword", currentPassword, newPassword, confirmPassword)
  }

  function ParseResetPassword(token: Option<string>, password: Option<string>, confirmPassword: Option<string>)
    : (r: Result<PasswordForm, seq<ZodIssue>>)
    ensures r == ParsePasswordForm("token", RESET_TOKEN_REQUIRED, "password", token, password, confirmPassword)
    ensures r.Ok? ==> password == confirmPassword && IsStrongPassword(password.value)
  {
    ParsePasswordForm("token", RESET_TOKEN_REQUIRED, "password", token, password, confirmPassword)
  }

  /** A weak new password that is also mistyped reports both problems, the mismatch last. */
  lemma WeakAndMismatched(current: string)
    requires current != ""
    ensures var r := ParseChangePassword(Some(current), Some("short"), Some("shorter"));
      r.Err? && |r.error| >= 2 && r.error[0].path == [Key("newPassword")]
      && r.error[|r.error| - 1] == Issue("confirmPassword", PASSWORDS_DIFFER, CUSTOM)
  {
    assert "short" != "shorter";
  }

  // ---------------------------------------------------------------- user update

  /** What `updateUserSchema` keeps: every field optional, no password. */
  datatype UserUpdate = UserUpdate(email: Option<string>, firstName: Option<string>, lastName: Option<string>,
                                   phone: Option<string>)

  /**
   * `updateUserSchema` on a body that may also carry a password; the email
   * rule is the library's own and is a parameter. Unknown keys, the password
   * among them, are stripped from the result.
   */
  function ParseUpdateUser(email: Option<string>, firstName: Option<string>, lastName: Option<string>,
                           phone: Option<string>, password: Option<string>, isEmail: string -> bool)
    : (r: Result<UserUpdate, seq<ZodIssue>>)
    ensures r.Ok? <==>
      && (email.Some? ==> isEmail(email.value))
      && firstName != Some("") && lastName != Some("")
      && (phone.Some? ==> IsPhoneNumber(phone.value))
    ensures r.Ok? ==> r.value == UserUpdate(email, firstName, lastName, phone)
  {
    var issues :=
      (if email.Some? then When(!isEmail(email.value), Issue("email", "Invalid email format", INVALID_STRING)) else [])
      + When(firstName == Some(""), Issue("firstName", "First name is required", TOO_SMALL))
      + When(lastName == Some(""), Issue("lastName", "Last name is required", TOO_SMALL))
      + (if phone.Some? then PhoneIssues("phone", phone.value) else []);
    if issues == [] then Ok(UserUpdate(email, firstName, lastName, phone)) else Err(issues)
  }

  /** The password key has no effect on an update, and an empty update is accepted. */
  lemma UpdateIgnoresPassword(email: Option<string>, firstName: Option<string>, lastName: Option<string>,
                              phone: Option<string>, p1: Option<string>, p2: Option<string>, isEmail: string -> bool)
    ensures ParseUpdateUser(email, firstName, lastName, phone, p1, isEmail)
         == ParseUpdateUser(email, firstName, lastName, phone, p2, isEmail)
    ensures ParseUpdateUser(None, None, None, None, p1, isEmail) == Ok(UserUpdate(None, None, None, None))
  {
  }
}
