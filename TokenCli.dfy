/**
 * The command-line token generator (scripts/token-generator.js).
 *
 * It re-implements the server's derivation with its own registry
 * (developer, marketing and pm; no designer) and its own default secret,
 * and hashes with Node's crypto module, which never fails. Output lines
 * and the call to the development server are not modelled; what a run
 * computes and its exit status are.
 */
module TokenCli {
  import opened Wrappers
  import opened Text
  import opened TokenGenerator

  /** Node's `crypto.createHash('sha256')...digest('hex')` never throws. */
  ghost predicate NeverFails(sha256: Sha256) {
    forall s :: sha256(s).Success?
  }

  /** The script's registry, in declaration order, and its secret; credentials may be overridden by the environment. */
  function CliConfig(env: map<string, string>, sha256: Sha256): (c: Config)
    ensures |c.registry| == 3
    ensures c.registry[0].role == "developer" && c.registry[1].role == "marketing" && c.registry[2].role == "pm"
    ensures c.sha256 == sha256
  {
    Config(
      [ Member("developer", EnvOr(env, "DEV_BIRTH", "20020317"), EnvOr(env, "DEV_PHONE", "01092034239")),
        Member("marketing", EnvOr(env, "MARKETING_BIRTH", "20030408"), EnvOr(env, "MARKETING_PHONE", "01025127854")),
        Member("pm", EnvOr(env, "PM_BIRTH", "20011121"), EnvOr(env, "PM_PHONE", "01071489971")) ],
      EnvOr(env, "PROJECT_SECRET", "vinscent_naver_give_up_secret_key"),
      sha256)
  }

  /**
   * The names every object inherits from `Object.prototype`. The script's
   * `role in TEAM_INFO` holds for them too, and `TEAM_INFO[role]` is then a
   * function or an object: truthy, with no `role`, `birthDate` or
   * `phoneLastFour` of its own.
   */
  const InheritedNames: set<string> := {
    "constructor", "__proto__", "__defineGetter__", "__defineSetter__", "__lookupGetter__", "__lookupSetter__",
    "hasOwnProperty", "isPrototypeOf", "propertyIsEnumerable", "toLocaleString", "toString", "valueOf" }

  /** A member whose three fields are `undefined`, which `join('|')` writes as empty strings. */
  const NoFields: Member := Member("", "", "")

  /** `TEAM_INFO[role]` in the script: the registered member, else an inherited value without fields, else `undefined`. */
  function CliMember(cfg: Config, role: string): (m: Option<Member>)
    ensures m.Some? <==> Lookup(cfg.registry, role).Some? || role in InheritedNames
    ensures Lookup(cfg.registry, role).Some? ==> m == Lookup(cfg.registry, role)
  {
    if Lookup(cfg.registry, role).Some? then Lookup(cfg.registry, role)
    else if role in InheritedNames then Some(NoFields)
    else None
  }

  /** The script's `generateDailyToken(date, role)`: `Invalid role` only when `TEAM_INFO[role]` is falsy. */
  function CliGenerateDailyToken(cfg: Config, date: string, role: string): (r: Result<string, TokenError>)
    ensures r == Failure(InvalidRole(role)) <==> CliMember(cfg, role).None?
    ensures Lookup(cfg.registry, role).Some? ==> r == GenerateDailyToken(cfg, date, role)
    ensures r.Success? ==> IsTokenShape(r.value)
  {
    match CliMember(cfg, role)
    case None => Failure(InvalidRole(role))
    case Some(m) => TokenFor(cfg, date, m)
  }

  /** The script's `getTodayToken(role)`: for a registered role, the server's token of the same registry. */
  function CliTodayToken(cfg: Config, isoNow: string, role: string): (r: Result<string, TokenError>)
    ensures Lookup(cfg.registry, role).Some? ==> r == GetTodayToken(cfg, isoNow, role)
    ensures r == Failure(InvalidRole(role)) <==> CliMember(cfg, role).None?
  {
    CliGenerateDailyToken(cfg, DateKey(isoNow), role)
  }

  /** With Node's hash the script's derivation fails only for a name that is neither registered nor inherited. */
  lemma CliDerivationFailsOnlyForUnknownRoles(c: Config, date: string, role: string)
    requires NeverFails(c.sha256)
    ensures CliGenerateDailyToken(c, date, role).Failure? <==> Lookup(c.registry, role).None? && role !in InheritedNames
  {
    var m := CliMember(c, role);
    if m.Some? {
      assert c.sha256(Ingredients(date, m.value, c.secret)).Success?;
    }
  }

  /**
   * An inherited name passes the script's role check and derives a token
   * from the date and the secret alone, so `token-generator.js constructor`
   * prints a token and exits 0.
   */
  lemma InheritedNameDerivesToken(cfg: Config, date: string, name: string)
    requires NeverFails(cfg.sha256) && name in InheritedNames && Lookup(cfg.registry, name).None?
    ensures CliGenerateDailyToken(cfg, date, name) == TokenFor(cfg, date, NoFields)
    ensures CliGenerateDailyToken(cfg, date, name).Success?
    ensures Ingredients(date, NoFields, cfg.secret) == date + "||||" + cfg.secret
  {
    assert cfg.sha256(Ingredients(date, NoFields, cfg.secret)).Success?;
    JoinFive(date, cfg.secret);
  }

  /** `constructor` is not one of the script's roles but passes its role check as an inherited name. */
  lemma ConstructorIsInherited(env: map<string, string>, sha256: Sha256)
    ensures Lookup(CliConfig(env, sha256).registry, "constructor").None?
    ensures CliMember(CliConfig(env, sha256), "constructor") == Some(NoFields)
  {
    var c := CliConfig(env, sha256);
    assert c.registry[0].role != "constructor" && c.registry[1].role != "constructor" && c.registry[2].role != "constructor";
  }

  /** `token-generator.js constructor`: the name passes the role check and its token is printed. */
  lemma ConstructorPrintsToken(env: map<string, string>, sha256: Sha256, isoNow: string)
    requires NeverFails(sha256)
    ensures CliMember(CliConfig(env, sha256), "constructor").Some?
    ensures CliTodayToken(CliConfig(env, sha256), isoNow, "constructor").Success?
  {
    ConstructorIsInherited(env, sha256);
    InheritedNameDerivesToken(CliConfig(env, sha256), DateKey(isoNow), "constructor");
  }

  /** The join of the date, three empty fields and the secret. */
  lemma JoinFive(date: string, secret: string)
    ensures Join([date, "", "", "", secret], "|") == date + "||||" + secret
  {
    var p := [date, "", "", "", secret];
    assert p[1..][1..][1..][1..] == [secret];
    assert p[1..][1..][1..] == ["", secret];
    assert p[1..][1..] == ["", "", secret];
    assert p[1..] == ["", "", "", secret];
    assert Join(p[1..][1..][1..], "|") == "" + "|" + secret;
    assert Join(p[1..][1..], "|") == "" + "|" + ("" + "|" + secret);
    assert Join(p[1..], "|") == "" + "|" + ("" + "|" + ("" + "|" + secret));
    assert Join(p, "|") == date + "|" + ("" + "|" + ("" + "|" + ("" + "|" + secret)));
  }

  /** None of the roles the script or the server registers is an inherited name. */
  lemma RolesNotInherited()
    ensures "developer" !in InheritedNames && "designer" !in InheritedNames
    ensures "marketing" !in InheritedNames && "pm" !in InheritedNames
  {
  }

  /** The text `getAllTodayTokens` stores for a role: the token, or `Error: ` and the message. */
  function EntryText(r: Result<string, TokenError>): string {
    match r
    case Success(t) => t
    case Failure(e) => "Error: " + ErrorMessage(e)
  }

  /** `--verify` skips an entry exactly when its derivation failed: no token starts with `Error:`. */
  lemma EntryIsErrorIffFailed(r: Result<string, TokenError>)
    requires r.Success? ==> IsTokenShape(r.value)
    ensures "Error:" <= EntryText(r) <==> r.Failure?
  {
    if r.Success? {
      assert IsLowerHex(r.value[0]);
      assert "Error:"[0] == 'E';
    } else {
      assert ("Error: " + ErrorMessage(r.error))[..6] == "Error:";
    }
  }

  /** What `getAllTodayTokens()` returns: every registered role with its token or error text, in registry order. */
  function AllTodayTokens(cfg: Config, isoNow: string): (entries: seq<(string, string)>)
    ensures |entries| == |cfg.registry|
    ensures forall i :: 0 <= i < |entries| ==> entries[i].0 == cfg.registry[i].role
  {
    seq(|cfg.registry|, i requires 0 <= i < |cfg.registry| => Entry(cfg, isoNow, cfg.registry[i].role))
  }

  /** One role's entry: the role with its token or its error text. */
  function Entry(cfg: Config, isoNow: string, role: string): (string, string) {
    (role, EntryText(CliTodayToken(cfg, isoNow, role)))
  }

  /** The script lists the very tokens the server derives from the same registry, secret and hash. */
  lemma CliTokensAreServerTokens(cfg: Config, isoNow: string)
    ensures forall i :: 0 <= i < |cfg.registry| ==>
      AllTodayTokens(cfg, isoNow)[i] == (cfg.registry[i].role, EntryText(GetTodayToken(cfg, isoNow, cfg.registry[i].role)))
  {
    forall i | 0 <= i < |cfg.registry|
      ensures AllTodayTokens(cfg, isoNow)[i] == (cfg.registry[i].role, EntryText(GetTodayToken(cfg, isoNow, cfg.registry[i].role)))
    {
      assert Lookup(cfg.registry, cfg.registry[i].role).Some?;
    }
  }

  lemma EntryAt(cfg: Config, isoNow: string, i: nat)
    requires i < |cfg.registry|
    ensures AllTodayTokens(cfg, isoNow)[i] == Entry(cfg, isoNow, cfg.registry[i].role)
  {
  }

  /** One turn of `getAllTodayTokens()`: the role's token, or the caught error as text. */
  method TodayEntry(cfg: Config, isoNow: string, role: string) returns (entry: (string, string))
    ensures entry == Entry(cfg, isoNow, role)
  {
    var token := CliTodayToken(cfg, isoNow, role);
    match token {
      case Success(t) =>
        entry := (role, t);
      case Failure(e) =>
        entry := (role, "Error: " + ErrorMessage(e));
    }
  }

  /** `getAllTodayTokens()`: every role in registry order, an error caught per role. */
  method GetAllTodayTokens(cfg: Config, isoNow: string) returns (entries: seq<(string, string)>)
    ensures entries == AllTodayTokens(cfg, isoNow)
  {
    ghost var all := AllTodayTokens(cfg, isoNow);
    entries := [];
    var i := 0;
    while i < |cfg.registry|
      invariant 0 <= i <= |cfg.registry| == |all|
      invariant entries == all[..i]
    {
      var entry := TodayEntry(cfg, isoNow, cfg.registry[i].role);
      EntryAt(cfg, isoNow, i);
      TakeOneMore(all, i);
      entries := entries + [entry];
      i := i + 1;
    }
    assert all[..i] == all;
  }

  /** The entries `--verify` sends to the server: those that do not start with `Error:`, in order. */
  function Verifiable(entries: seq<(string, string)>): (r: seq<(string, string)>)
    ensures |r| <= |entries|
    ensures forall e :: e in r <==> e in entries && !("Error:" <= e.1)
    decreases |entries|
  {
    if |entries| == 0 then []
    else
      var last := entries[|entries| - 1];
      var init := Verifiable(entries[..|entries| - 1]);
      assert entries == entries[..|entries| - 1] + [last];
      if "Error:" <= last.1 then init else init + [last]
  }

  /** The entries `--verify` skips: those that start with `Error:`. */
  function ErrorCount(entries: seq<(string, string)>): (n: nat)
    ensures n + |Verifiable(entries)| == |entries|
    ensures n == 0 <==> forall i :: 0 <= i < |entries| ==> !("Error:" <= entries[i].1)
    decreases |entries|
  {
    if |entries| == 0 then 0
    else
      var init := entries[..|entries| - 1];
      assert forall i :: 0 <= i < |init| ==> init[i] == entries[i];
      ErrorCount(init) + if "Error:" <= entries[|entries| - 1].1 then 1 else 0
  }

  /** One more entry of the sweep: it is sent or it is skipped. */
  lemma VerifyStep(entries: seq<(string, string)>, i: nat)
    requires i < |entries|
    ensures Verifiable(entries[..i + 1]) == Verifiable(entries[..i]) + (if "Error:" <= entries[i].1 then [] else [entries[i]])
    ensures ErrorCount(entries[..i + 1]) == ErrorCount(entries[..i]) + (if "Error:" <= entries[i].1 then 1 else 0)
  {
    assert entries[..i + 1][..i] == entries[..i];
  }

  /** The outcome of `runTests()`: the exit status and the two checks it prints. */
  datatype TestReport = TestReport(exitCode: int, consistent: bool, unique: bool)

  /** What one invocation does, with its exit status. */
  datatype Outcome =
    | UnknownRole(role: string)
    | SingleToken(role: string, token: string)
    | Crashed(error: TokenError)
    | VerifyAll(checked: seq<(string, string)>, skipped: nat)
    | ListAll(entries: seq<(string, string)>)
    | Tests(report: TestReport)
  {
    function ExitCode(): int {
      match this
      case UnknownRole(_) => 1
      case Crashed(_) => 1
      case Tests(report) => report.exitCode
      case _ => 0
    }
  }

  /**
   * `runTests()` with the second role of its uniqueness check as a
   * parameter; any derivation that throws lands in the catch and exits 1.
   */
  method RunTestsWith(cfg: Config, isoNow: string, otherRole: string) returns (report: TestReport)
    ensures report.exitCode == 0 <==>
      CliGenerateDailyToken(cfg, "20250101", "developer").Success?
      && CliTodayToken(cfg, isoNow, "developer").Success?
      && CliGenerateDailyToken(cfg, "20250101", otherRole).Success?
    ensures report.exitCode != 0 ==> report.exitCode == 1
    ensures report.exitCode == 0 ==>
      report.consistent
      && (report.unique <==> CliGenerateDailyToken(cfg, "20250101", "developer") != CliGenerateDailyToken(cfg, "20250101", otherRole))
  {
    var testDate := "20250101";
    var developerToken := CliGenerateDailyToken(cfg, testDate, "developer");
    if developerToken.Failure? {
      return TestReport(1, false, false);
    }
    var todayDeveloper := CliTodayToken(cfg, isoNow, "developer");
    if todayDeveloper.Failure? {
      return TestReport(1, false, false);
    }
    var allTokens := GetAllTodayTokens(cfg, isoNow);
    var token1 := CliGenerateDailyToken(cfg, testDate, "developer");
    var token2 := CliGenerateDailyToken(cfg, testDate, "developer");
    var devToken := CliGenerateDailyToken(cfg, testDate, "developer");
    var otherToken := CliGenerateDailyToken(cfg, testDate, otherRole);
    if otherToken.Failure? {
      return TestReport(1, false, false);
    }
    return TestReport(0, token1.value == token2.value, devToken.value != otherToken.value);
  }

  /** `runTests()` as written: its uniqueness check derives a `designer` token. */
  method RunTestsAsWritten(cfg: Config, isoNow: string) returns (report: TestReport)
    ensures report.exitCode == 0 <==>
      CliGenerateDailyToken(cfg, "20250101", "developer").Success?
      && CliTodayToken(cfg, isoNow, "developer").Success?
      && CliGenerateDailyToken(cfg, "20250101", "designer").Success?
    ensures report.exitCode != 0 ==> report.exitCode == 1
    ensures Lookup(cfg.registry, "designer").None? ==> report.exitCode == 1
  {
    report := RunTestsWith(cfg, isoNow, "designer");
    if Lookup(cfg.registry, "designer").None? {
      UnregisteredDesignerFails(cfg, "20250101");
    }
  }

  /** `--test` as written always fails, whatever the environment: the CLI registry has no designer. */
  lemma TestsAsWrittenAlwaysFail(env: map<string, string>, sha256: Sha256)
    ensures CliGenerateDailyToken(CliConfig(env, sha256), "20250101", "designer").Failure?
  {
    var c := CliConfig(env, sha256);
    assert c.registry[0].role != "designer" && c.registry[1].role != "designer" && c.registry[2].role != "designer";
    assert Lookup(c.registry, "designer").None?;
    RolesNotInherited();
  }

  /** `runTests()` with the uniqueness check between two roles the registry has (developer and marketing). */
  method RunTests(cfg: Config, isoNow: string) returns (report: TestReport)
    ensures report.exitCode == 0 <==>
      CliGenerateDailyToken(cfg, "20250101", "developer").Success?
      && CliTodayToken(cfg, isoNow, "developer").Success?
      && CliGenerateDailyToken(cfg, "20250101", "marketing").Success?
    ensures report.exitCode != 0 ==> report.exitCode == 1
    ensures report.exitCode == 0 ==> report.consistent
    ensures (NeverFails(cfg.sha256) && Lookup(cfg.registry, "developer").Some? && Lookup(cfg.registry, "marketing").Some?) ==>
      report.exitCode == 0
  {
    report := RunTestsWith(cfg, isoNow, "marketing");
    if NeverFails(cfg.sha256) && Lookup(cfg.registry, "developer").Some? && Lookup(cfg.registry, "marketing").Some? {
      CorrectedTestDerivationsSucceed(cfg, isoNow);
    }
  }

  /** Without a registered `designer` the script's derivation for it fails: the name is not inherited either. */
  lemma UnregisteredDesignerFails(cfg: Config, date: string)
    requires Lookup(cfg.registry, "designer").None?
    ensures CliGenerateDailyToken(cfg, date, "designer").Failure?
  {
    RolesNotInherited();
    assert CliMember(cfg, "designer").None?;
  }

  /** With Node's hash and developer and marketing registered, every derivation of the corrected self-test succeeds. */
  lemma CorrectedTestDerivationsSucceed(cfg: Config, isoNow: string)
    requires NeverFails(cfg.sha256)
    requires Lookup(cfg.registry, "developer").Some? && Lookup(cfg.registry, "marketing").Some?
    ensures CliGenerateDailyToken(cfg, "20250101", "developer").Success?
    ensures CliTodayToken(cfg, isoNow, "developer").Success?
    ensures CliGenerateDailyToken(cfg, "20250101", "marketing").Success?
  {
    CliDerivationFailsOnlyForUnknownRoles(cfg, "20250101", "developer");
    CliDerivationFailsOnlyForUnknownRoles(cfg, DateKey(isoNow), "developer");
    CliDerivationFailsOnlyForUnknownRoles(cfg, "20250101", "marketing");
  }

  /** With its own registry and Node's hash the corrected self-test passes. */
  lemma TestsPass(env: map<string, string>, sha256: Sha256, isoNow: string)
    requires NeverFails(sha256)
    ensures CliGenerateDailyToken(CliConfig(env, sha256), "20250101", "developer").Success?
    ensures CliTodayToken(CliConfig(env, sha256), isoNow, "developer").Success?
    ensures CliGenerateDailyToken(CliConfig(env, sha256), "20250101", "marketing").Success?
  {
    var c := CliConfig(env, sha256);
    assert c.registry[0].role == "developer" && c.registry[1].role == "marketing";
    CliDerivationFailsOnlyForUnknownRoles(c, "20250101", "developer");
    CliDerivationFailsOnlyForUnknownRoles(c, DateKey(isoNow), "developer");
    CliDerivationFailsOnlyForUnknownRoles(c, "20250101", "marketing");
  }

  /** The `--verify` loop: entries with an error text are skipped, the others are sent to the server. */
  method VerifySweep(allTokens: seq<(string, string)>) returns (checked: seq<(string, string)>, skipped: nat)
    ensures checked == Verifiable(allTokens) && skipped == ErrorCount(allTokens)
  {
    checked := [];
    skipped := 0;
    var i := 0;
    while i < |allTokens|
      invariant 0 <= i <= |allTokens|
      invariant checked == Verifiable(allTokens[..i])
      invariant skipped == ErrorCount(allTokens[..i])
    {
      VerifyStep(allTokens, i);
      if "Error:" <= allTokens[i].1 {
        skipped := skipped + 1;
      } else {
        checked := checked + [allTokens[i]];
      }
      i := i + 1;
    }
    assert allTokens[..i] == allTokens;
  }

  /** Only registered roles are sent to the server. */
  lemma VerifiableRoles(cfg: Config, isoNow: string)
    ensures forall e :: e in Verifiable(AllTodayTokens(cfg, isoNow)) ==> e.0 in Roles(cfg.registry)
  {
    var all := AllTodayTokens(cfg, isoNow);
    forall e | e in Verifiable(all)
      ensures e.0 in Roles(cfg.registry)
    {
      var j :| 0 <= j < |all| && all[j] == e;
      assert Roles(cfg.registry)[j] == e.0;
    }
  }

  /** `main()` after the `--test` dispatch: one role's token, the `--verify` sweep, or every role's token. */
  method RunMain(cfg: Config, isoNow: string, args: seq<string>) returns (outcome: Outcome)
    ensures |args| > 0 && args[0] != "--test" && args[0] != "--verify" ==>
      if CliMember(cfg, args[0]).None? then outcome == UnknownRole(args[0])
      else match CliTodayToken(cfg, isoNow, args[0])
           case Success(t) => outcome == SingleToken(args[0], t)
           case Failure(e) => outcome == Crashed(e)
    ensures !(|args| > 0 && args[0] != "--test" && args[0] != "--verify") && "--verify" in args ==>
      outcome == VerifyAll(Verifiable(AllTodayTokens(cfg, isoNow)), ErrorCount(AllTodayTokens(cfg, isoNow)))
      && forall e :: e in outcome.checked ==> e.0 in Roles(cfg.registry)
    ensures !(|args| > 0 && args[0] != "--test" && args[0] != "--verify") && "--verify" !in args ==>
      outcome == ListAll(AllTodayTokens(cfg, isoNow))
  {
    if |args| > 0 && args[0] != "--test" && args[0] != "--verify" {
      var role := args[0];
      if CliMember(cfg, role).None? {
        return UnknownRole(role);
      }
      var token := CliTodayToken(cfg, isoNow, role);
      match token {
        case Success(t) => return SingleToken(role, t);
        case Failure(e) => return Crashed(e);
      }
    }
    var allTokens := GetAllTodayTokens(cfg, isoNow);
    if "--verify" in args {
      var checked, skipped := VerifySweep(allTokens);
      VerifiableRoles(cfg, isoNow);
      return VerifyAll(checked, skipped);
    }
    return ListAll(allTokens);
  }

  /**
   * The script's entry point: `--test` anywhere runs `runTests()` as
   * written, which derives a `designer` token; anything else runs `main()`.
   */
  method Cli(cfg: Config, isoNow: string, args: seq<string>) returns (outcome: Outcome)
    ensures "--test" in args ==>
      outcome.Tests?
      && (outcome.ExitCode() == 0 <==>
            CliGenerateDailyToken(cfg, "20250101", "developer").Success?
            && CliTodayToken(cfg, isoNow, "developer").Success?
            && CliGenerateDailyToken(cfg, "20250101", "designer").Success?)
    ensures "--test" in args && Lookup(cfg.registry, "designer").None? ==> outcome.ExitCode() == 1
    ensures "--test" !in args && |args| > 0 && args[0] != "--verify" ==>
      (outcome.ExitCode() == 1 <==> CliMember(cfg, args[0]).None? || CliTodayToken(cfg, isoNow, args[0]).Failure?)
    ensures "--test" !in args && !(|args| > 0 && args[0] != "--verify") ==> outcome.ExitCode() == 0
  {
    if "--test" in args {
      var report := RunTestsAsWritten(cfg, isoNow);
      return Tests(report);
    }
    outcome := RunMain(cfg, isoNow, args);
  }

  /**
   * The entry point with the corrected self-test: `--test` exits 0 iff the
   * developer and marketing derivations succeed, which `RunTests` shows they
   * do with Node's hash.
   */
  method CliCorrected(cfg: Config, isoNow: string, args: seq<string>) returns (outcome: Outcome)
    ensures "--test" in args ==>
      outcome.Tests?
      && (outcome.ExitCode() == 0 <==>
            CliGenerateDailyToken(cfg, "20250101", "developer").Success?
            && CliTodayToken(cfg, isoNow, "developer").Success?
            && CliGenerateDailyToken(cfg, "20250101", "marketing").Success?)
    ensures "--test" !in args && |args| > 0 && args[0] != "--verify" ==>
      (outcome.ExitCode() == 1 <==> CliMember(cfg, args[0]).None? || CliTodayToken(cfg, isoNow, args[0]).Failure?)
    ensures "--test" !in args && !(|args| > 0 && args[0] != "--verify") ==> outcome.ExitCode() == 0
  {
    if "--test" in args {
      var report := RunTests(cfg, isoNow);
      return Tests(report);
    }
    outcome := Cli(cfg, isoNow, args);
  }
}
