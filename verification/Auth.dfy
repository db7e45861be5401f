/** The gateway's token table: issuing a token and deciding whether a presented one is good. */
module Auth {
  import opened Basics
  import opened Hex

  type Hash = string

  /** bcrypt from outside: a salted hash, and a check that may also reject a malformed hash. */
  datatype Crypto = Crypto(hash: (Bytes, nat) -> Hash, verify: (Bytes, Hash) -> Option<bool>)

  /** A token always matches a hash made from it. Other tokens may match as well. */
  ghost predicate Faithful(c: Crypto) {
    forall bytes: Bytes, salt: nat :: c.verify(bytes, c.hash(bytes, salt)) == Some(true)
  }

  datatype AuthRow = AuthRow(hash: Hash, account: Uuid, expiry: Time)

  datatype AuthError = Unreadable(cause: TokenError) | TokenCryptError | TokenExpired | TokenDoesNotExist

  datatype TokenCreated = TokenCreated(token: seq<Ascii>, account: Uuid, expiry: Time)

  /** 30 days */
  const LIFETIME: Time := 30 * 24 * 60 * 60

  function NewRow(c: Crypto, account: Uuid, bytes: Bytes, salt: nat, now: Time): AuthRow {
    AuthRow(c.hash(bytes, salt), account, now + LIFETIME)
  }

  /** SELECT ... WHERE account_id = account, in table order. */
  function RowsOf(rows: seq<AuthRow>, account: Uuid): (r: seq<AuthRow>)
    ensures forall row :: row in r <==> row in rows && row.account == account
  {
    if rows == [] then []
    else
      var rest := RowsOf(rows[..|rows| - 1], account);
      if rows[|rows| - 1].account == account then rest + [rows[|rows| - 1]] else rest
  }

  /** The verdict of the scan from row `i` on, when none of the rows before it matched. */
  function ScanFrom(c: Crypto, rows: seq<AuthRow>, bytes: Bytes, now: Time, i: nat): Result<bool, AuthError>
    requires i <= |rows|
    decreases |rows| - i
  {
    if i == |rows| then (if i == 0 then Err(TokenDoesNotExist) else Ok(false))
    else
      match c.verify(bytes, rows[i].hash)
      case None => Err(TokenCryptError)
      case Some(false) => ScanFrom(c, rows, bytes, now, i + 1)
      case Some(true) => if now > rows[i].expiry then Err(TokenExpired) else Ok(true)
  }

  function Validate(c: Crypto, rows: seq<AuthRow>, text: seq<Ascii>, account: Uuid, now: Time)
    : Result<bool, AuthError>
  {
    match Parse(text)
    case Err(e) => Err(Unreadable(e))
    case Ok(bytes) => ScanFrom(c, RowsOf(rows, account), bytes, now, 0)
  }

  class AuthDb {
    var rows: seq<AuthRow>

    constructor ()
      ensures rows == []
    {
      rows := [];
    }

    method CreateToken(c: Crypto, account: Uuid, bytes: Bytes, salt: nat, now: Time)
      returns (created: TokenCreated)
      requires |bytes| == TOKEN_BYTES
      modifies this
      ensures rows == old(rows) + [AuthRow(c.hash(bytes, salt), account, now + 2592000)]
      ensures created.account == account && created.expiry == now + 2592000
      ensures created.token == Print(bytes) && Parse(created.token) == Ok(bytes)
    {
      rows := rows + [NewRow(c, account, bytes, salt, now)];
      var text := Display(bytes);
      RoundTrip(bytes);
      created := TokenCreated(text, account, now + LIFETIME);
    }

    method ValidateToken(c: Crypto, text: seq<Ascii>, account: Uuid, now: Time)
      returns (r: Result<bool, AuthError>)
      ensures r == Validate(c, rows, text, account, now)
      ensures RightVerdict(c, rows, text, account, now, r)
    {
      ValidateGivesRightVerdict(c, rows, text, account, now);
      var provided := Parse(text);
      match provided
      case Err(e) => r := Err(Unreadable(e));
      case Ok(bytes) => r := ScanRows(c, account, bytes, now);
    }

    /** The loop over the account's rows, with its counter. */
    method ScanRows(c: Crypto, account: Uuid, bytes: Bytes, now: Time) returns (r: Result<bool, AuthError>)
      ensures r == ScanFrom(c, RowsOf(rows, account), bytes, now, 0)
    {
      var found := RowsOf(rows, account);
      var cursor, checked := 0, 0;
      while cursor < |found|
        invariant 0 <= cursor <= |found|
        invariant checked == cursor
        invariant ScanFrom(c, found, bytes, now, 0) == ScanFrom(c, found, bytes, now, cursor)
      {
        var valid := c.verify(bytes, found[cursor].hash);
        if valid.None? { return Err(TokenCryptError); }
        if valid.value {
          if now > found[cursor].expiry { return Err(TokenExpired); }
          return Ok(true);
        }
        checked := checked + 1;
        cursor := cursor + 1;
      }
      return if checked == 0 then Err(TokenDoesNotExist) else Ok(false);
    }
  }

  // ---------------------------------------------------------------- what the scan decides

  predicate NoMatchIn(c: Crypto, rows: seq<AuthRow>, bytes: Bytes) {
    forall i :: 0 <= i < |rows| ==> c.verify(bytes, rows[i].hash) == Some(false)
  }

  /** The first row that is not a plain mismatch. */
  predicate Decisive(c: Crypto, rows: seq<AuthRow>, bytes: Bytes, k: int) {
    0 <= k < |rows| && c.verify(bytes, rows[k].hash) != Some(false) && NoMatchIn(c, rows[..k], bytes)
  }

  function Verdict(c: Crypto, row: AuthRow, bytes: Bytes, now: Time): Result<bool, AuthError> {
    if c.verify(bytes, row.hash).None? then Err(TokenCryptError)
    else if now > row.expiry then Err(TokenExpired)
    else Ok(true)
  }

  lemma {:induction false} ScanFromDecides(c: Crypto, rows: seq<AuthRow>, bytes: Bytes, now: Time, i: nat)
    returns (k: int)
    requires i <= |rows| && NoMatchIn(c, rows[..i], bytes)
    ensures Decisive(c, rows, bytes, k) || (k == -1 && NoMatchIn(c, rows, bytes))
    ensures k >= 0 ==> ScanFrom(c, rows, bytes, now, i) == Verdict(c, rows[k], bytes, now)
    ensures k < 0 ==> ScanFrom(c, rows, bytes, now, i) == if rows == [] then Err(TokenDoesNotExist) else Ok(false)
    decreases |rows| - i
  {
    if i == |rows| {
      k := -1;
      assert rows[..i] == rows;
    } else if c.verify(bytes, rows[i].hash) != Some(false) {
      k := i;
    } else {
      assert rows[..i + 1] == rows[..i] + [rows[i]];
      k := ScanFromDecides(c, rows, bytes, now, i + 1);
    }
  }

  /**
   No rows: the token does not exist. Rows without a match: a plain no. Otherwise the first row
   that is not a mismatch decides, by its hash and its expiry alone.
   */
  lemma ScanMeaning(c: Crypto, rows: seq<AuthRow>, bytes: Bytes, now: Time, k: int)
    ensures ScanFrom(c, rows, bytes, now, 0) == Err(TokenDoesNotExist) <==> rows == []
    ensures ScanFrom(c, rows, bytes, now, 0) == Ok(false) <==> rows != [] && NoMatchIn(c, rows, bytes)
    ensures Decisive(c, rows, bytes, k) ==> ScanFrom(c, rows, bytes, now, 0) == Verdict(c, rows[k], bytes, now)
  {
    var first := ScanFromDecides(c, rows, bytes, now, 0);
  }

  // ---------------------------------------------------------------- what validation decides

  /** Every row of the account is a plain mismatch. */
  ghost predicate AllMismatch(c: Crypto, rows: seq<AuthRow>, account: Uuid, bytes: Bytes) {
    forall i :: 0 <= i < |rows| && rows[i].account == account ==> c.verify(bytes, rows[i].hash) == Some(false)
  }

  /** The first row of the account, in table order, that is not a plain mismatch. */
  ghost predicate FirstOfAccount(c: Crypto, rows: seq<AuthRow>, account: Uuid, bytes: Bytes, k: int) {
    && 0 <= k < |rows| && rows[k].account == account && c.verify(bytes, rows[k].hash) != Some(false)
    && AllMismatch(c, rows[..k], account, bytes)
  }

  /**
   The verdict on a presented text, over the whole table: a text that is no token is reported as such,
   an account without rows as unknown, a token that matches none of the account's rows is a plain no,
   and otherwise the account's first row that is not a mismatch decides.
   */
  ghost predicate RightVerdict(
    c: Crypto, rows: seq<AuthRow>, text: seq<Ascii>, account: Uuid, now: Time, r: Result<bool, AuthError>)
  {
    && (r == Err(Unreadable(TokenLengthError)) <==> |text| != 256)
    && (r == Err(Unreadable(TokenParseError)) <==> |text| == 256 && !InLanguage(text))
    && (r == Err(TokenDoesNotExist)
        <==> InLanguage(text) && forall i :: 0 <= i < |rows| ==> rows[i].account != account)
    && (r == Ok(false)
        <==> && Parse(text).Ok? && AllMismatch(c, rows, account, Parse(text).value)
             && exists i :: 0 <= i < |rows| && rows[i].account == account)
    && (forall k :: Parse(text).Ok? && FirstOfAccount(c, rows, account, Parse(text).value, k) ==>
          r == match c.verify(Parse(text).value, rows[k].hash)
               case None => Err(TokenCryptError)
               case Some(_) => if now <= rows[k].expiry then Ok(true) else Err(TokenExpired))
  }

  lemma {:induction false} MismatchInRows(c: Crypto, rows: seq<AuthRow>, account: Uuid, bytes: Bytes)
    ensures NoMatchIn(c, RowsOf(rows, account), bytes) <==> AllMismatch(c, rows, account, bytes)
    ensures RowsOf(rows, account) == [] <==> forall i :: 0 <= i < |rows| ==> rows[i].account != account
  {
    if rows != [] {
      var init, last := rows[..|rows| - 1], rows[|rows| - 1];
      MismatchInRows(c, init, account, bytes);
      assert rows == init + [last];
      assert AllMismatch(c, rows, account, bytes) <==>
          AllMismatch(c, init, account, bytes)
          && (last.account == account ==> c.verify(bytes, last.hash) == Some(false));
    }
  }

  /** The first such row of the table is the first such row of the account's rows. */
  lemma {:induction false} FirstAmongRows(
    c: Crypto, rows: seq<AuthRow>, account: Uuid, bytes: Bytes, k: nat) returns (m: nat)
    requires FirstOfAccount(c, rows, account, bytes, k)
    ensures Decisive(c, RowsOf(rows, account), bytes, m) && RowsOf(rows, account)[m] == rows[k]
  {
    var init := rows[..|rows| - 1];
    if k == |rows| - 1 {
      MismatchInRows(c, init, account, bytes);
      m := |RowsOf(init, account)|;
      assert RowsOf(rows, account)[..m] == RowsOf(init, account);
    } else {
      assert init[..k] == rows[..k];
      m := FirstAmongRows(c, init, account, bytes, k);
      assert RowsOf(rows, account)[..m] == RowsOf(init, account)[..m];
    }
  }

  lemma ValidateGivesRightVerdict(c: Crypto, rows: seq<AuthRow>, text: seq<Ascii>, account: Uuid, now: Time)
    ensures RightVerdict(c, rows, text, account, now, Validate(c, rows, text, account, now))
  {
    ParseNormalises(text);
    if Parse(text).Ok? {
      var bytes := Parse(text).value;
      var found := RowsOf(rows, account);
      MismatchInRows(c, rows, account, bytes);
      var first := ScanFromDecides(c, found, bytes, now, 0);
      forall k | FirstOfAccount(c, rows, account, bytes, k)
        ensures Validate(c, rows, text, account, now) == Verdict(c, rows[k], bytes, now)
      {
        var m := FirstAmongRows(c, rows, account, bytes, k);
        ScanMeaning(c, found, bytes, now, m);
      }
    }
  }

  // ---------------------------------------------------------------- one row per account

  ghost predicate OneRowEach(rows: seq<AuthRow>) {
    forall i, j :: 0 <= i < j < |rows| ==> rows[i].account != rows[j].account
  }

  lemma {:induction false} NoRows(rows: seq<AuthRow>, account: Uuid)
    requires forall i :: 0 <= i < |rows| ==> rows[i].account != account
    ensures RowsOf(rows, account) == []
  {
    if rows != [] { NoRows(rows[..|rows| - 1], account); }
  }

  lemma {:induction false} SingleRow(rows: seq<AuthRow>, k: nat)
    requires OneRowEach(rows) && k < |rows|
    ensures RowsOf(rows, rows[k].account) == [rows[k]]
  {
    var init := rows[..|rows| - 1];
    if k < |init| {
      SingleRow(init, k);
    } else {
      NoRows(init, rows[k].account);
    }
  }

  lemma ShortBagsAreLists<T>(a: seq<T>, b: seq<T>)
    requires multiset(a) == multiset(b) && |a| <= 1
    ensures a == b
  {
    assert |a| == |multiset(a)| == |multiset(b)| == |b|;
    if |a| == 1 {
      assert b[0] in multiset(a);
    }
  }

  lemma RowsOfPermuted(rows: seq<AuthRow>, shuffled: seq<AuthRow>, account: Uuid)
    requires multiset(rows) == multiset(shuffled)
    ensures multiset(RowsOf(rows, account)) == multiset(RowsOf(shuffled, account))
  {
    RowsOfCounts(rows, account);
    RowsOfCounts(shuffled, account);
  }

  lemma AtMostOneRow(rows: seq<AuthRow>, account: Uuid)
    requires OneRowEach(rows)
    ensures |RowsOf(rows, account)| <= 1
  {
    if k :| 0 <= k < |rows| && rows[k].account == account {
      SingleRow(rows, k);
    } else {
      NoRows(rows, account);
    }
  }

  /** With one row an account, the answer does not depend on the order of the table. */
  lemma AnswerIgnoresOrder(
    c: Crypto, rows: seq<AuthRow>, shuffled: seq<AuthRow>, text: seq<Ascii>, account: Uuid, now: Time)
    requires OneRowEach(rows) && multiset(rows) == multiset(shuffled)
    ensures Validate(c, rows, text, account, now) == Validate(c, shuffled, text, account, now)
  {
    RowsOfPermuted(rows, shuffled, account);
    AtMostOneRow(rows, account);
    ShortBagsAreLists(RowsOf(rows, account), RowsOf(shuffled, account));
  }

  lemma {:induction false} RowsOfCounts(rows: seq<AuthRow>, account: Uuid)
    ensures forall row :: multiset(RowsOf(rows, account))[row]
                       == if row.account == account then multiset(rows)[row] else 0
  {
    if rows != [] {
      RowsOfCounts(rows[..|rows| - 1], account);
      assert rows == rows[..|rows| - 1] + [rows[|rows| - 1]];
    }
  }

  /** A token read from its own print, checked against the one row of its account. */
  lemma IssuedTokenAnswers(
    c: Crypto, rows: seq<AuthRow>, k: nat, bytes: Bytes, salt: nat, issued: Time, now: Time)
    requires Faithful(c) && OneRowEach(rows) && k < |rows| && |bytes| == TOKEN_BYTES
    requires rows[k] == NewRow(c, rows[k].account, bytes, salt, issued)
    ensures Validate(c, rows, Print(bytes), rows[k].account, now)
         == if now <= issued + 2592000 then Ok(true) else Err(TokenExpired)
  {
    RoundTrip(bytes);
    SingleRow(rows, k);
    assert c.verify(bytes, c.hash(bytes, salt)) == Some(true);
    ScanMeaning(c, [rows[k]], bytes, now, 0);
  }
}
