/** The `/userinfo` routes: the profile update that derives a nickname and
    a level from the member's AAA number, the password change with its
    ordered checks, and the two account-recovery routes. The data layer,
    bcrypt and the mailer are outside the model: their answers are
    parameters. */
module UserInfo {
  import opened Json
  import opened Decimal

  predicate IsA(c: char)
  {
    c == 'A' || c == 'a'
  }

  /** `/^[0-9]{2}[Aa]{3}-[0-9]{1,3}$/`: generation first, as in `17AAA-012`. */
  predicate GenerationFirst(s: string)
  {
    && 7 <= |s| <= 9
    && IsDigit(s[0]) && IsDigit(s[1])
    && IsA(s[2]) && IsA(s[3]) && IsA(s[4])
    && s[5] == '-' && AllDigits(s[6..])
  }

  /** `/^[Aa]{3}[0-9]{2}-[0-9]{1,3}$/`: generation after the letters, as in `AAA17-012`. */
  predicate GenerationAfterLetters(s: string)
  {
    && 7 <= |s| <= 9
    && IsA(s[0]) && IsA(s[1]) && IsA(s[2])
    && IsDigit(s[3]) && IsDigit(s[4])
    && s[5] == '-' && AllDigits(s[6..])
  }

  /** The nickname and the AAA number the profile update stores. */
  datatype Membership = Membership(nickname: string, aaaNo: Option<string>)

  /** The nickname rule: a recognised AAA number puts its two generation
      digits in front of the user name and is kept; anything else (absent,
      empty or unrecognised) leaves the user name alone and clears the
      number to `null`. */
  function Normalize(aaaNo: Option<string>, username: string): (m: Membership)
    ensures m.aaaNo.Some? <==>
      Present(aaaNo) && (GenerationFirst(aaaNo.value) || GenerationAfterLetters(aaaNo.value))
    ensures m.aaaNo.Some? ==> m.aaaNo == aaaNo
    ensures m.aaaNo.None? ==> m.nickname == username
    ensures m.aaaNo.Some? ==>
      && |m.nickname| == |username| + 2 && m.nickname[2..] == username
      && IsDigit(m.nickname[0]) && IsDigit(m.nickname[1])
  {
    if Present(aaaNo) then
      if GenerationFirst(aaaNo.value) then Membership(aaaNo.value[..2] + username, aaaNo)
      else if GenerationAfterLetters(aaaNo.value) then Membership(aaaNo.value[3..5] + username, aaaNo)
      else Membership(username, None)
    else Membership(username, None)
  }

  /** The two patterns never both match: one starts with a digit, the other
      with a letter. */
  lemma PatternsExclusive(s: string)
    ensures !(GenerationFirst(s) && GenerationAfterLetters(s))
  {
  }

  /** The generation digits of a `17AAA-012` number are its first two
      characters. */
  lemma NicknameFromGenerationFirst(aaaNo: string, username: string)
    requires GenerationFirst(aaaNo)
    ensures Normalize(Some(aaaNo), username) == Membership(aaaNo[..2] + username, Some(aaaNo))
  {
  }

  /** The generation digits of an `AAA17-012` number are its fourth and
      fifth characters. */
  lemma NicknameFromGenerationAfterLetters(aaaNo: string, username: string)
    requires GenerationAfterLetters(aaaNo)
    ensures Normalize(Some(aaaNo), username) == Membership(aaaNo[3..5] + username, Some(aaaNo))
  {
  }

  /** Normalising the stored number again changes nothing. */
  lemma NormalizeIdempotent(aaaNo: Option<string>, username: string)
    ensures Normalize(Normalize(aaaNo, username).aaaNo, username) == Normalize(aaaNo, username)
  {
  }

  /** The level rule: a level above 1 is kept; otherwise a member with a
      recognised AAA number gets 2 and anyone else 1. The update never
      lowers a level and never stores one below 1. */
  function Level(current: int, aaaNo: Option<string>): (level: int)
    ensures level >= 1 && level >= current
    ensures current > 1 ==> level == current
    ensures current <= 1 ==> (level == 2 <==> Present(aaaNo))
    ensures current <= 1 && !Present(aaaNo) ==> level == 1
  {
    if current > 1 then current
    else if Present(aaaNo) then 2
    else 1
  }

  function Max(x: int, y: int): int
  {
    if x < y then y else x
  }

  /** The level is the larger of the current level and the one the AAA
      number earns. */
  lemma LevelIsMaxOfEarned(current: int, aaaNo: Option<string>)
    ensures Level(current, aaaNo) == Max(current, if Present(aaaNo) then 2 else 1)
  {
  }

  /** A member at level 1 or below who gives a recognised AAA number ends
      at level 2. */
  lemma RecognisedNumberGrantsLevelTwo(current: int, aaaNo: string, username: string)
    requires current <= 1
    requires GenerationFirst(aaaNo) || GenerationAfterLetters(aaaNo)
    ensures Level(current, Normalize(Some(aaaNo), username).aaaNo) == 2
  {
    assert Present(Normalize(Some(aaaNo), username).aaaNo);
  }

  /** The row the profile update writes. */
  datatype UserUpdate = UserUpdate(
    username: string, nickname: string, aaaNo: Option<string>,
    colNo: Value, major: Value, email: Value, mobile: Value, introduction: Value,
    level: int, profilePath: Option<string>)

  /** What the profile update reads from the stored user. */
  datatype StoredUser = StoredUser(level: int, profilePath: Option<string>)

  /** The multipart body of PATCH `/`, which the handler changes in place. */
  class ProfileForm {
    var username: string
    var aaaNo: Option<string>
    var profilePath: Option<string>
    /** The remaining body fields, by name. */
    var rest: Object

    constructor (username: string, aaaNo: Option<string>, rest: Object)
      ensures this.username == username && this.aaaNo == aaaNo && this.rest == rest
      ensures profilePath == None
    {
      this.username := username;
      this.aaaNo := aaaNo;
      this.rest := rest;
      profilePath := None;
    }
  }

  /** PATCH `/` once the stored user is read: sets the body's profile path
      and AAA number, then derives the row to write. `uploaded` is the
      stored name of an uploaded profile image, if any. */
  method PatchProfile(data: ProfileForm, uploaded: Option<string>, current: StoredUser) returns (update: UserUpdate)
    modifies data
    ensures data.profilePath == if uploaded.Some? then Some("/profile/" + uploaded.value) else current.profilePath
    ensures var m := Normalize(old(data.aaaNo), old(data.username));
      && data.aaaNo == m.aaaNo
      && update == UserUpdate(
           data.username, m.nickname, m.aaaNo,
           Get(data.rest, "col_no"), Get(data.rest, "major"), Get(data.rest, "email"),
           Get(data.rest, "mobile"), Get(data.rest, "introduction"),
           Level(current.level, m.aaaNo), data.profilePath)
    ensures data.username == old(data.username) && data.rest == old(data.rest)
  {
    if uploaded.Some? {
      data.profilePath := Some("/profile/" + uploaded.value);
    } else {
      data.profilePath := current.profilePath;
    }

    var nickname := "";
    if Present(data.aaaNo) {
      if GenerationFirst(data.aaaNo.value) {
        nickname := data.aaaNo.value[..2] + data.username;
      } else if GenerationAfterLetters(data.aaaNo.value) {
        nickname := data.aaaNo.value[3..5] + data.username;
      } else {
        nickname := data.username;
        data.aaaNo := None;
      }
    } else {
      nickname := data.username;
      data.aaaNo := None;
    }

    var level;
    if current.level > 1 {
      level := current.level;
    } else if Present(data.aaaNo) {
      level := 2;
    } else {
      level := 1;
    }

    update := UserUpdate(
      data.username, nickname, data.aaaNo,
      Get(data.rest, "col_no"), Get(data.rest, "major"), Get(data.rest, "email"),
      Get(data.rest, "mobile"), Get(data.rest, "introduction"),
      level, data.profilePath);
  }

  /** The checks of PATCH `/password`, in order; the first that fails decides
      the error, and `None` means all passed. Every failure is a 403 with a
      code from 1011 to 1014. */
  function PasswordChangeError(currentMatches: bool, newPassword: Option<string>, confirmation: Option<string>): (err: Option<HttpError>)
    ensures err.Some? ==> err.value.status == 403 && 1011 <= err.value.code <= 1014
    ensures !currentMatches ==> err == Some(HttpError(403, 1011))
  {
    if !currentMatches then Some(HttpError(403, 1011))
    else if !Present(newPassword) then Some(HttpError(403, 1012))
    else if newPassword != confirmation then Some(HttpError(403, 1013))
    else if |newPassword.value| < 8 || |newPassword.value| > 20 then Some(HttpError(403, 1014))
    else None
  }

  /** A list of checks, each with the code it reports when it fails. */
  function FirstFailing(checks: seq<(bool, int)>): (code: Option<int>)
    ensures code.Some? ==> exists i :: 0 <= i < |checks| && !checks[i].0 && checks[i].1 == code.value
    ensures code.None? <==> forall i :: 0 <= i < |checks| ==> checks[i].0
  {
    if checks == [] then None
    else if !checks[0].0 then Some(checks[0].1)
    else
      var rest := FirstFailing(checks[1..]);
      assert forall i :: 1 <= i < |checks| ==> checks[i] == checks[1..][i - 1];
      rest
  }

  /** The password checks written as a list, independently of the if/else chain. */
  function PasswordChecks(currentMatches: bool, newPassword: Option<string>, confirmation: Option<string>): seq<(bool, int)>
  {
    [ (currentMatches, 1011),
      (Present(newPassword), 1012),
      (newPassword == confirmation, 1013),
      (newPassword.Some? && 8 <= |newPassword.value| <= 20, 1014) ]
  }

  /** The if/else chain is the first failing check of the list, reported
      with status 403. */
  lemma PasswordChecksRunInOrder(currentMatches: bool, newPassword: Option<string>, confirmation: Option<string>)
    ensures var code := FirstFailing(PasswordChecks(currentMatches, newPassword, confirmation));
      PasswordChangeError(currentMatches, newPassword, confirmation)
        == if code.Some? then Some(HttpError(403, code.value)) else None
  {
    var checks := PasswordChecks(currentMatches, newPassword, confirmation);
    assert checks[1..][1..] == checks[2..] && checks[2..][1..] == checks[3..] && checks[3..][1..] == [];
    assert FirstFailing(checks[3..]) == if checks[3].0 then None else Some(1014);
    assert FirstFailing(checks[2..]) == if checks[2].0 then FirstFailing(checks[3..]) else Some(1013);
    assert FirstFailing(checks[1..]) == if checks[1].0 then FirstFailing(checks[2..]) else Some(1012);
  }

  /** The new password is accepted exactly when the current one matches,
      the new one is given and equals its confirmation, and it is 8 to 20
      characters long. */
  lemma PasswordAcceptedExactly(currentMatches: bool, newPassword: Option<string>, confirmation: Option<string>)
    ensures PasswordChangeError(currentMatches, newPassword, confirmation).None? <==>
      && currentMatches
      && newPassword.Some? && confirmation == newPassword
      && 8 <= |newPassword.value| <= 20
  {
  }

  /** A rejection reaching the `.catch` of PATCH `/password`. */
  datatype Rejection =
    | Coded(err: HttpError)   // one of the `{ status, code }` objects
    | Thrown                  // any other error: data layer, bcrypt, a null user

  /** An error with a (truthy) status is handed to `next` unchanged; any
      other becomes status 500, code 1010. */
  function ForwardError(r: Rejection): (e: HttpError)
    ensures e.status != 0
    ensures r.Coded? && r.err.status != 0 ==> e == r.err
    ensures !(r.Coded? && r.err.status != 0) ==> e == HttpError(500, 1010)
  {
    if r.Coded? && r.err.status != 0 then r.err else HttpError(500, 1010)
  }

  datatype PasswordReply = PasswordChanged | PasswordNext(err: HttpError)

  /** What PATCH `/password` does: `hashed` is the password handed to
      `hashSync` and stored, if any. */
  datatype PasswordOutcome = PasswordOutcome(hashed: Option<string>, reply: PasswordReply)

  /** How comparing the given password with the stored hash ends. `Throws`
      is every way the promise chain rejects before an answer: the lookup
      fails, it gives no user, or `compareSync` throws on a password or hash
      that is not a string (a missing `password` field, a null hash). A throw
      inside the promise executor rejects the promise. */
  datatype Verdict = Matches | Differs | Throws

  /** PATCH `/password`. `verdict` is what `retrieveUserPw` followed by
      `compareSync` ends with, and `updateOk` whether `updateUserPw`
      succeeds. Only a new password that is handed to `hashSync` is stored,
      and it is the one given. */
  function ChangePassword(verdict: Verdict, newPassword: Option<string>,
                          confirmation: Option<string>, updateOk: bool): (o: PasswordOutcome)
    ensures o.hashed.Some? ==> o.hashed == newPassword && verdict == Matches
    ensures o.reply.PasswordNext? ==> o.reply.err.status in {403, 500}
  {
    if verdict.Throws? then PasswordOutcome(None, PasswordNext(ForwardError(Thrown)))
    else match PasswordChangeError(verdict == Matches, newPassword, confirmation)
      case Some(err) => PasswordOutcome(None, PasswordNext(ForwardError(Coded(err))))
      case None =>
        PasswordOutcome(newPassword,
          if updateOk then PasswordChanged else PasswordNext(ForwardError(Thrown)))
  }

  /** The password is replaced only when the comparison answers and every
      check passes, and then by the new password; failed checks reach `next`
      with their own 403 code, everything else (a throw in the lookup or in
      `compareSync`, a failed update) with 500, code 1010. */
  lemma PasswordUpdatedOnlyWhenValid(verdict: Verdict, newPassword: Option<string>,
                                     confirmation: Option<string>, updateOk: bool)
    ensures var o := ChangePassword(verdict, newPassword, confirmation, updateOk);
      var check := PasswordChangeError(verdict == Matches, newPassword, confirmation);
      && (o.hashed.Some? <==> !verdict.Throws? && check.None?)
      && (o.hashed.Some? ==> o.hashed == newPassword && 8 <= |newPassword.value| <= 20)
      && (o.reply == PasswordChanged <==> o.hashed.Some? && updateOk)
      && (!verdict.Throws? && check.Some? ==> o.reply == PasswordNext(check.value))
      && (verdict == Differs ==> o.reply == PasswordNext(HttpError(403, 1011)))
      && (o.reply.PasswordNext? && !(!verdict.Throws? && check.Some?) ==> o.reply.err == HttpError(500, 1010))
  {
    PasswordAcceptedExactly(verdict == Matches, newPassword, confirmation);
  }

  const FoundIdPrefix := "회원님의 ID는 "
  const FoundIdSuffix := "입니다."
  const FoundIdSubject := "[SNUAAA] 회원님의 ID를 알려드립니다."

  /** The ids separated by ", ". */
  function JoinIds(ids: seq<string>): string
  {
    if |ids| == 0 then ""
    else if |ids| == 1 then ids[0]
    else JoinIds(ids[..|ids| - 1]) + ", " + ids[|ids| - 1]
  }

  /** Read from the front: the first id, then ", " before each further one. */
  lemma {:induction false} JoinIdsFront(id: string, ids: seq<string>)
    ensures JoinIds([id] + ids) == id + (if ids == [] then "" else ", " + JoinIds(ids))
  {
    if |ids| > 1 {
      var all := [id] + ids;
      assert all[..|all| - 1] == [id] + ids[..|ids| - 1];
      JoinIdsFront(id, ids[..|ids| - 1]);
    } else if |ids| == 1 {
      assert ([id] + ids)[..1] == [id];
    }
  }

  function TotalLength(ids: seq<string>): nat
  {
    if ids == [] then 0 else TotalLength(ids[..|ids| - 1]) + |ids[|ids| - 1]|
  }

  /** The joined text holds every id's characters plus two per separator. */
  lemma {:induction false} JoinIdsLength(ids: seq<string>)
    requires ids != []
    ensures |JoinIds(ids)| == TotalLength(ids) + 2 * (|ids| - 1)
  {
    if |ids| > 1 {
      JoinIdsLength(ids[..|ids| - 1]);
    }
  }

  /** The mail text of `/find/id`, built by appending inside the loop over
      the users. */
  method FoundIdText(ids: seq<string>) returns (text: string)
    ensures text == FoundIdPrefix + JoinIds(ids) + FoundIdSuffix
  {
    text := FoundIdPrefix;
    var i := 0;
    while i < |ids|
      invariant 0 <= i <= |ids|
      invariant text == FoundIdPrefix + JoinIds(ids[..i])
    {
      assert ids[..i + 1][..i] == ids[..i];
      if i == 0 {
        text := text + ids[i];
      } else {
        text := text + ", " + ids[i];
      }
      i := i + 1;
    }
    assert ids[..|ids|] == ids;
    text := text + FoundIdSuffix;
  }

  /** The text names the first id right after the greeting, and every id
      adds its own length plus the ", " before it. */
  lemma FoundIdTextLayout(ids: seq<string>)
    requires ids != []
    ensures var text := FoundIdPrefix + JoinIds(ids) + FoundIdSuffix;
      && FoundIdPrefix + ids[0] <= text
      && |text| == |FoundIdPrefix| + TotalLength(ids) + 2 * (|ids| - 1) + |FoundIdSuffix|
  {
    JoinIdsFront(ids[0], ids[1..]);
    assert [ids[0]] + ids[1..] == ids;
    JoinIdsLength(ids);
  }

  datatype Mail =
    | IdMail(to: string, subject: string, text: string)
    | TemporaryPasswordMail(to: string, password: string)

  datatype RecoveryReply =
    | RecoverySent   // 200 { success: true }
    | BadRequest     // 400 { code: 0 }
    | ServerError    // 500 { error: 'internal server error', code: 0 }

  /** POST `/find/id`. `users` holds the ids of the users with the given
      email and name, or is `None` when the query fails. */
  method FindId(users: Option<seq<string>>, email: string) returns (reply: RecoveryReply, mail: Option<Mail>)
    ensures users.None? ==> reply == ServerError && mail.None?
    ensures users.Some? && users.value == [] ==> reply == BadRequest && mail.None?
    ensures users.Some? && users.value != [] ==>
      reply == RecoverySent &&
      mail == Some(IdMail(email, FoundIdSubject, FoundIdPrefix + JoinIds(users.value) + FoundIdSuffix))
  {
    if users.None? {
      reply, mail := ServerError, None;
    } else if |users.value| > 0 {
      reply := RecoverySent;
      var text := FoundIdText(users.value);
      mail := Some(IdMail(email, FoundIdSubject, text));
    } else {
      reply, mail := BadRequest, None;
    }
  }

  datatype Account = Account(userId: int, email: string, username: string)

  /** What `retrieveUserById` gives. */
  datatype AccountLookup = LookupFailed | NoSuchUser | Found(account: Account)

  /** What POST `/find/pw` does: the `updateUserPw` call issued (user and temporary
      password), the reply if one is sent, and the mail. */
  datatype ResetOutcome = ResetOutcome(update: Option<(int, string)>, reply: Option<RecoveryReply>, mail: Option<Mail>)

  /** POST `/find/pw`. `lookup` is what `retrieveUserById` gives for the
      `id` of the form, `temporary` is the random password and `updateOk`
      whether storing it succeeds. A mail goes out only together with the
      success reply, to the account's address, carrying the password set. */
  function FindPassword(lookup: AccountLookup, email: Option<string>, name: Option<string>,
                        temporary: string, updateOk: bool): (o: ResetOutcome)
    ensures o.mail.Some? <==> o.reply == Some(RecoverySent)
    ensures o.mail.Some? ==> lookup.Found? && o.update.Some? && o.mail.value == TemporaryPasswordMail(lookup.account.email, o.update.value.1)
  {
    match lookup
    case LookupFailed => ResetOutcome(None, Some(BadRequest), None)
    case NoSuchUser => ResetOutcome(None, Some(BadRequest), None)
    case Found(user) =>
      if email == Some(user.email) && name == Some(user.username) then
        if updateOk then
          ResetOutcome(Some((user.userId, temporary)), Some(RecoverySent), Some(TemporaryPasswordMail(email.value, temporary)))
        else
          ResetOutcome(Some((user.userId, temporary)), None, None)
      else ResetOutcome(None, Some(BadRequest), None)
  }

  /** The password update is issued exactly for an existing user whose email
      and name both match, and then for that user with the temporary
      password; every other case answers 400, code 0, and sends no mail. A
      failed update sends no reply at all. */
  lemma UpdateIssuedOnlyForMatchingUser(lookup: AccountLookup, email: Option<string>, name: Option<string>,
                                 temporary: string, updateOk: bool)
    ensures var o := FindPassword(lookup, email, name, temporary, updateOk);
      && (o.update.Some? <==>
            lookup.Found? && email == Some(lookup.account.email) && name == Some(lookup.account.username))
      && (o.update.Some? ==> o.update.value == (lookup.account.userId, temporary))
      && (o.update.None? ==> o.reply == Some(BadRequest) && o.mail.None?)
      && (o.update.Some? && !updateOk ==> o.reply.None?)
      && (o.mail.Some? ==> o.mail.value.to == lookup.account.email)
  {
  }
}
