/**
 * The interactive token generator (scripts/token-generator-interactive.js).
 *
 * It asks for a birth date and a phone number, rejects either unless it has
 * the right number of digits, looks the pair up in its registry (the same
 * as the command-line generator's) and prints that member's token for
 * today. Every ending waits for Enter; a rejection, an unknown pair or an
 * error then exits with status 1.
 */
module TokenInteractive {
  import opened Wrappers
  import opened Text
  import opened TokenGenerator

  /** `/^\d{8}$/`. */
  predicate IsBirthDateInput(s: string) {
    |s| == 8 && AllDigits(s)
  }

  /** `/^\d{10,11}$/`. */
  predicate IsPhoneInput(s: string) {
    10 <= |s| <= 11 && AllDigits(s)
  }

  predicate Matches(m: Member, birthDate: string, phone: string) {
    m.birthDate == birthDate && m.phoneLastFour == phone
  }

  /** The role of the first member, in registry order, with both credentials equal. */
  function CredentialsRole(registry: seq<Member>, birthDate: string, phone: string): (r: Option<string>)
    ensures r.None? <==> forall j :: 0 <= j < |registry| ==> !Matches(registry[j], birthDate, phone)
    decreases |registry|
  {
    if |registry| == 0 then None
    else if Matches(registry[0], birthDate, phone) then Some(registry[0].role)
    else
      assert forall j :: 1 <= j < |registry| ==> registry[j] == registry[1..][j - 1];
      CredentialsRole(registry[1..], birthDate, phone)
  }

  /** `findRoleByCredentials(birthDate, phone)`. */
  method FindRoleByCredentials(registry: seq<Member>, birthDate: string, phone: string) returns (role: Option<string>)
    ensures role == CredentialsRole(registry, birthDate, phone)
  {
    var i := 0;
    while i < |registry|
      invariant 0 <= i <= |registry|
      invariant CredentialsRole(registry[i..], birthDate, phone) == CredentialsRole(registry, birthDate, phone)
    {
      assert registry[i..][1..] == registry[i + 1..];
      if registry[i].birthDate == birthDate && registry[i].phoneLastFour == phone {
        return Some(registry[i].role);
      }
      i := i + 1;
    }
    return None;
  }

  /** A role is returned only for a member whose credentials both match, and the first such member. */
  lemma {:induction false} CredentialsRoleSound(registry: seq<Member>, birthDate: string, phone: string)
    ensures CredentialsRole(registry, birthDate, phone).Some? ==>
      exists k :: 0 <= k < |registry| && Matches(registry[k], birthDate, phone)
        && registry[k].role == CredentialsRole(registry, birthDate, phone).value
        && forall j :: 0 <= j < k ==> !Matches(registry[j], birthDate, phone)
    ensures CredentialsRole(registry, birthDate, phone).None? <==>
      forall j :: 0 <= j < |registry| ==> !Matches(registry[j], birthDate, phone)
    decreases |registry|
  {
    if |registry| > 0 && !Matches(registry[0], birthDate, phone) {
      var rest := registry[1..];
      CredentialsRoleSound(rest, birthDate, phone);
      assert forall j :: 1 <= j < |registry| ==> registry[j] == rest[j - 1];
      if CredentialsRole(rest, birthDate, phone).Some? {
        var k :| 0 <= k < |rest| && Matches(rest[k], birthDate, phone)
          && rest[k].role == CredentialsRole(rest, birthDate, phone).value
          && forall j :: 0 <= j < k ==> !Matches(rest[j], birthDate, phone);
        assert Matches(registry[k + 1], birthDate, phone);
        assert forall j :: 0 <= j < k + 1 ==> !Matches(registry[j], birthDate, phone);
      }
    }
  }

  /** No two members share both a birth date and a phone number. */
  predicate DistinctCredentials(registry: seq<Member>) {
    forall i, j :: 0 <= i < j < |registry| ==>
      !(registry[i].birthDate == registry[j].birthDate && registry[i].phoneLastFour == registry[j].phoneLastFour)
  }

  /** Each member's own credentials lead back to that member's role. */
  lemma {:induction false} CredentialsRoleRoundTrip(registry: seq<Member>, k: nat)
    requires k < |registry|
    requires DistinctCredentials(registry)
    ensures CredentialsRole(registry, registry[k].birthDate, registry[k].phoneLastFour) == Some(registry[k].role)
    decreases k
  {
    if k > 0 {
      var rest := registry[1..];
      assert DistinctCredentials(rest) by {
        forall i, j | 0 <= i < j < |rest|
          ensures !(rest[i].birthDate == rest[j].birthDate && rest[i].phoneLastFour == rest[j].phoneLastFour)
        {
          assert rest[i] == registry[i + 1] && rest[j] == registry[j + 1];
        }
      }
      CredentialsRoleRoundTrip(rest, k - 1);
      assert rest[k - 1] == registry[k];
    }
  }

  datatype Stage = AwaitingBirthDate | AwaitingPhone | AwaitingExit | Exited

  /** One run of the prompt: its stage, what was accepted so far and what it will exit with. */
  class Session {
    const config: Config
    const date: string
    var stage: Stage
    var birthDate: string
    var role: Option<string>
    var token: Option<string>
    var exitCode: int

    /** Before the phone answer nothing has been found, derived or decided. */
    predicate Valid()
      reads this
    {
      (stage == AwaitingBirthDate || stage == AwaitingPhone) ==> role.None? && token.None? && exitCode == 0
    }

    /** The run starts by asking for the birth date; the date is today's, from the clock. */
    constructor(config: Config, isoNow: string)
      ensures this.config == config && date == DateKey(isoNow)
      ensures stage == AwaitingBirthDate && role.None? && token.None? && exitCode == 0
      ensures Valid()
    {
      this.config := config;
      date := DateKey(isoNow);
      stage := AwaitingBirthDate;
      birthDate := "";
      role := None;
      token := None;
      exitCode := 0;
    }

    /** The trimmed birth date is kept when it is eight digits; otherwise the run ends with status 1. */
    method AnswerBirthDate(answer: string)
      requires stage == AwaitingBirthDate
      requires Valid()
      modifies this
      ensures Valid()
      ensures IsBirthDateInput(Trim(answer)) ==> stage == AwaitingPhone && birthDate == Trim(answer) && exitCode == 0
      ensures !IsBirthDateInput(Trim(answer)) ==> stage == AwaitingExit && birthDate == old(birthDate) && exitCode == 1
      ensures role == old(role) && token == old(token)
    {
      var b := Trim(answer);
      if !IsBirthDateInput(b) {
        stage := AwaitingExit;
        exitCode := 1;
        return;
      }
      birthDate := b;
      stage := AwaitingPhone;
    }

    /**
     * The trimmed phone must be ten or eleven digits; the pair must belong to
     * a member; only then is a token derived, for that member's role.
     */
    method AnswerPhone(answer: string)
      requires stage == AwaitingPhone
      requires Valid()
      modifies this
      ensures Valid()
      ensures stage == AwaitingExit && birthDate == old(birthDate)
      ensures !IsPhoneInput(Trim(answer)) ==> role.None? && token.None? && exitCode == 1
      ensures IsPhoneInput(Trim(answer)) ==> role == CredentialsRole(config.registry, birthDate, Trim(answer))
      ensures role.None? ==> token.None? && exitCode == 1
      ensures role.Some? ==>
        match GenerateDailyToken(config, date, role.value)
        case Success(t) => token == Some(t) && exitCode == 0
        case Failure(_) => token.None? && exitCode == 1
    {
      var phone := Trim(answer);
      stage := AwaitingExit;
      if !IsPhoneInput(phone) {
        exitCode := 1;
        return;
      }
      role := FindRoleByCredentials(config.registry, birthDate, phone);
      if role.None? {
        exitCode := 1;
        return;
      }
      var derived := GenerateDailyToken(config, date, role.value);
      if derived.Failure? {
        exitCode := 1;
        return;
      }
      token := Some(derived.value);
      exitCode := 0;
    }

    /** `waitForExit`: Enter ends the run with the status chosen before. */
    method PressEnter()
      requires stage == AwaitingExit
      requires Valid()
      modifies this
      ensures Valid()
      ensures stage == Exited
      ensures birthDate == old(birthDate) && role == old(role) && token == old(token) && exitCode == old(exitCode)
    {
      stage := Exited;
    }
  }
}
