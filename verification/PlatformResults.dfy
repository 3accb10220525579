/** Result codes of the two platform executors and the classification of their failures. */
module PlatformResults {

  datatype Code = NoCode | Verified | Changed | InvalidInput | Authentication | Identity | Unreachable | Unsupported
                | PermissionDenied | PasswordRejected | ResultUnknown

  function Text(code: Code): (text: string)
    ensures |text| <= 64 && (text == "" <==> code == NoCode)
  {
    match code
    case NoCode => ""
    case Verified => "verified"
    case Changed => "changed"
    case InvalidInput => "invalid_input"
    case Authentication => "authentication_failed"
    case Identity => "target_identity_mismatch"
    case Unreachable => "unreachable"
    case Unsupported => "unsupported"
    case PermissionDenied => "permission_denied"
    case PasswordRejected => "password_rejected"
    case ResultUnknown => "result_unknown"
  }

  datatype Result = Result(code: Code, attempted: bool, confirmedUnchanged: bool)

  const EMPTY := Result(NoCode, false, false)

  function NotSent(code: Code): Result {
    Result(code, false, false)
  }

  /** How an operation on a remote session can fail. */
  datatype Failure = BadInput | Certificate | Database(number: int) | HostKey | Unauthenticated | OtherFailure

  /** The MySQL errors that prove the statement was refused. */
  const REFUSALS: set<int> := {1045, 1698, 1044, 1142, 1227, 1290, 1819, 1820, 1862, 3638, 1064, 1235}

  /** pamMySQLFailure: only a listed database error after the statement was sent confirms that nothing changed. */
  function MySQLFailure(err: Failure, attempted: bool): (r: Result)
    ensures r.attempted == attempted
    ensures r.confirmedUnchanged <==> attempted && err.Database? && err.number in REFUSALS
    ensures r.code != Changed && r.code != Verified && r.code != NoCode
    ensures r.code == ResultUnknown ==> attempted && !r.confirmedUnchanged
  {
    var plain := Result(if attempted then ResultUnknown else Unreachable, attempted, false);
    match err
    case BadInput => plain.(code := InvalidInput)
    case Certificate => plain.(code := Identity)
    case Database(n) =>
      if n == 1045 || n == 1698 then Result(Authentication, attempted, attempted)
      else if n == 1044 || n == 1142 || n == 1227 || n == 1290 then Result(PermissionDenied, attempted, attempted)
      else if n == 1819 || n == 1820 || n == 1862 || n == 3638 then Result(PasswordRejected, attempted, attempted)
      else if n == 1064 || n == 1235 then Result(Unsupported, attempted, attempted)
      else plain
    case _ => plain
  }

  /** pamSSHFailure: a failed remote command never confirms anything. */
  function SSHFailure(err: Failure, attempted: bool): (r: Result)
    ensures r.attempted == attempted && !r.confirmedUnchanged
    ensures r.code != Changed && r.code != Verified && r.code != NoCode
    ensures r.code == Authentication ==> !attempted
  {
    var plain := Result(if attempted then ResultUnknown else Unreachable, attempted, false);
    match err
    case BadInput => plain.(code := InvalidInput)
    case HostKey => plain.(code := Identity)
    case Unauthenticated => if attempted then plain else plain.(code := Authentication)
    case _ => plain
  }

  /** The four groups of refusals a MySQL server can be known by. */
  lemma MySQLCodes(err: Failure, attempted: bool)
    ensures var code := MySQLFailure(err, attempted).code;
      var number := if err.Database? then err.number else 0;
      && (code == InvalidInput <==> err.BadInput?)
      && (code == Identity <==> err.Certificate?)
      && (code == Authentication <==> number in {1045, 1698})
      && (code == PermissionDenied <==> number in {1044, 1142, 1227, 1290})
      && (code == PasswordRejected <==> number in {1819, 1820, 1862, 3638})
      && (code == Unsupported <==> number in {1064, 1235})
      && (code == ResultUnknown <==> attempted && !err.BadInput? && !err.Certificate? && number !in REFUSALS)
      && (code == Unreachable <==> !attempted && !err.BadInput? && !err.Certificate? && number !in REFUSALS)
  {
  }

  lemma SSHCodes(err: Failure, attempted: bool)
    ensures var code := SSHFailure(err, attempted).code;
      && (code == InvalidInput <==> err.BadInput?) && (code == Identity <==> err.HostKey?)
      && (code == Authentication <==> err.Unauthenticated? && !attempted)
      && (code == ResultUnknown <==> attempted && !err.BadInput? && !err.HostKey?)
      && (code == Unreachable <==> !attempted && !err.BadInput? && !err.HostKey? && !err.Unauthenticated?)
  {
  }
}
