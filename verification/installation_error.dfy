/**
 * The installation aggregate's error type: a code from a closed enumeration,
 * a message that starts with the code's name, and a metadata entry that
 * records the code's name under the key "ErrorCode".
 */
module InstallationErrors {

  import opened Optional

  datatype ErrorCode = AlreadyCreated | IdInvalid | InstallationIdInvalid

  /** Every code the enumeration declares. */
  const AllCodes: set<ErrorCode> := {AlreadyCreated, IdInvalid, InstallationIdInvalid}

  /** The enumeration member's name, as its text conversion yields it. */
  function Name(code: ErrorCode): (name: string)
  {
    match code
    case AlreadyCreated => "ALREADY_CREATED"
    case IdInvalid => "ID_INVALID"
    case InstallationIdInvalid => "INSTALLATION_ID_INVALID"
  }

  /** The metadata key under which an error records its code's name. */
  const CodeKey: string := "ErrorCode"

  /** What separates the code's name from the caller's text in a message. */
  const Separator: string := ": "

  datatype InstallationError = InstallationError(
    code: ErrorCode,
    message: string,
    metadata: map<string, string>)

  /**
   * Builds an error from a code and a free-text message. The error's base
   * class starts with empty metadata, so the "ErrorCode" entry is the only one.
   */
  function NewError(errorCode: ErrorCode, errorMsg: string): (e: InstallationError)
    ensures e.code == errorCode
    ensures StartsWith(e.message, Name(errorCode) + Separator)
    ensures e.message[|Name(errorCode) + Separator|..] == errorMsg
    ensures e.metadata.Keys == {CodeKey}
    ensures CodeFromName(e.metadata[CodeKey]) == Some(errorCode)
  {
    NameRoundTrip(errorCode);
    InstallationError(
      errorCode,
      Name(errorCode) + Separator + errorMsg,
      map[CodeKey := Name(errorCode)])
  }

  predicate StartsWith(s: string, prefix: string)
  {
    |prefix| <= |s| && s[..|prefix|] == prefix
  }

  /** The code whose name is `s`, if any: the inverse of `Name`. */
  function CodeFromName(s: string): (r: Option<ErrorCode>)
    ensures r.Some? ==> Name(r.value) == s
    ensures r.None? ==> forall c :: Name(c) != s
  {
    if s == "ALREADY_CREATED" then Some(AlreadyCreated)
    else if s == "ID_INVALID" then Some(IdInvalid)
    else if s == "INSTALLATION_ID_INVALID" then Some(InstallationIdInvalid)
    else None
  }

  /**
   * Splits a message into the code named by its prefix and the caller's text
   * that follows the separator; `None` when no code name and separator lead it.
   */
  function SplitMessage(message: string): (r: Option<(ErrorCode, string)>)
    ensures r.Some? ==> message == Name(r.value.0) + Separator + r.value.1
  {
    if StartsWith(message, Name(AlreadyCreated) + Separator) then
      Some((AlreadyCreated, message[|Name(AlreadyCreated) + Separator|..]))
    else if StartsWith(message, Name(IdInvalid) + Separator) then
      Some((IdInvalid, message[|Name(IdInvalid) + Separator|..]))
    else if StartsWith(message, Name(InstallationIdInvalid) + Separator) then
      Some((InstallationIdInvalid, message[|Name(InstallationIdInvalid) + Separator|..]))
    else
      None
  }

  /** The enumeration declares exactly three codes. */
  lemma ExactlyThreeCodes()
    ensures forall c: ErrorCode :: c in AllCodes
    ensures |AllCodes| == 3
  {
    forall c: ErrorCode ensures c in AllCodes {
      match c
      case AlreadyCreated =>
      case IdInvalid =>
      case InstallationIdInvalid =>
    }
  }

  lemma NameRoundTrip(c: ErrorCode)
    ensures CodeFromName(Name(c)) == Some(c)
  {
  }

  /** Distinct codes have distinct names, so the metadata entry identifies the code. */
  lemma NameInjective(c1: ErrorCode, c2: ErrorCode)
    ensures Name(c1) == Name(c2) <==> c1 == c2
  {
    NameRoundTrip(c1);
    NameRoundTrip(c2);
  }

  /** No code's name followed by the separator begins another code's name and separator. */
  lemma PrefixesDisjoint(c1: ErrorCode, c2: ErrorCode, s: string)
    requires StartsWith(s, Name(c1) + Separator)
    requires StartsWith(s, Name(c2) + Separator)
    ensures c1 == c2
  {
    var p1, p2 := Name(c1) + Separator, Name(c2) + Separator;
    assert s[0] == p1[0] == p2[0] by {
      assert s[..|p1|][0] == s[0] && s[..|p2|][0] == s[0];
    }
    assert s[1] == p1[1] == p2[1] by {
      assert s[..|p1|][1] == s[1] && s[..|p2|][1] == s[1];
    }
  }

  /** The message of a constructed error decodes back to its code and text. */
  lemma MessageRoundTrip(code: ErrorCode, errorMsg: string)
    ensures SplitMessage(NewError(code, errorMsg).message) == Some((code, errorMsg))
  {
    var m := NewError(code, errorMsg).message;
    var r := SplitMessage(m);
    assert r.Some? by {
      assert StartsWith(m, Name(code) + Separator);
    }
    var c := r.value.0;
    assert StartsWith(m, Name(c) + Separator) by {
      assert m[..|Name(c) + Separator|] == Name(c) + Separator;
    }
    PrefixesDisjoint(c, code, m);
  }

  /** Two errors carry the same message only when built from the same code and text. */
  lemma MessageInjective(c1: ErrorCode, m1: string, c2: ErrorCode, m2: string)
    ensures NewError(c1, m1).message == NewError(c2, m2).message <==> c1 == c2 && m1 == m2
  {
    MessageRoundTrip(c1, m1);
    MessageRoundTrip(c2, m2);
  }
}
