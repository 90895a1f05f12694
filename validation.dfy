/** `validate_input`: the checks every record passes before the cache is consulted. */
module Validation {

  import opened Json
  import opened Prims
  import Utf8

  const MaxAppNameLen := 64
  const MaxSessionIdLen := 128
  /** 100 KiB, measured in UTF-8 bytes. */
  const MaxInputBytes := 100 * 1024

  const AppNameMissing := "Invalid app_name: must be a non-empty string"
  const AppNameTooLong := "Invalid app_name: exceeds maximum length of 64 characters"
  const AppNameBadChars := "Invalid app_name: contains invalid characters"
  const InputMissing := "Invalid input: must be a non-empty string"
  const InputTooLarge := "Invalid input: exceeds maximum size of 100KB"
  const SessionIdMissing := "Invalid session_id: must be a non-empty string"
  const SessionIdTooLong := "Invalid session_id: exceeds maximum length of 128 characters"
  const SessionIdBadChars := "Invalid session_id: contains invalid characters"

  /** `(True, None)` or `(False, message)`. */
  datatype Verdict = Valid | Invalid(message: string)

  /** A character `c.isalnum() or c in ('-', '_')` accepts. */
  predicate IdentChar(p: Prims, c: char) {
    p.isAlnum(c) || c == '-' || c == '_'
  }

  /** A non-empty string of at most `maxLen` code points, all of them IdentChar. */
  predicate Identifier(p: Prims, s: string, maxLen: nat) {
    1 <= |s| <= maxLen && forall i :: 0 <= i < |s| ==> IdentChar(p, s[i])
  }

  predicate AppNameOk(p: Prims, appName: Json) {
    appName.JStr? && Identifier(p, appName.s, MaxAppNameLen)
  }

  predicate InputTextOk(inputText: Json) {
    inputText.JStr? && inputText.s != "" && Utf8.ByteLen(inputText.s) <= MaxInputBytes
  }

  predicate SessionIdOk(p: Prims, sessionId: Json) {
    sessionId.JStr? && Identifier(p, sessionId.s, MaxSessionIdLen)
  }

  /**
   * The three fields are checked in the order app_name, input text,
   * session_id; the first failing check decides the message. The arguments
   * are whatever the parsed message held, so each may be any JSON value.
   */
  function ValidateInput(p: Prims, appName: Json, inputText: Json, sessionId: Json): (v: Verdict)
    ensures v == Valid <==> AppNameOk(p, appName) && InputTextOk(inputText) && SessionIdOk(p, sessionId)
    ensures !AppNameOk(p, appName) ==>
      v.Invalid? && v.message in {AppNameMissing, AppNameTooLong, AppNameBadChars}
    ensures AppNameOk(p, appName) && !InputTextOk(inputText) ==>
      v.Invalid? && v.message in {InputMissing, InputTooLarge}
    ensures AppNameOk(p, appName) && InputTextOk(inputText) && !SessionIdOk(p, sessionId) ==>
      v.Invalid? && v.message in {SessionIdMissing, SessionIdTooLong, SessionIdBadChars}
    // Within a field, the checks run in the order presence, length, characters.
    ensures !Truthy(appName) || !appName.JStr? ==> v == Invalid(AppNameMissing)
    ensures appName.JStr? && appName.s != "" && |appName.s| > MaxAppNameLen ==> v == Invalid(AppNameTooLong)
    ensures appName.JStr? && 1 <= |appName.s| <= MaxAppNameLen && !Identifier(p, appName.s, MaxAppNameLen) ==>
      v == Invalid(AppNameBadChars)
    ensures AppNameOk(p, appName) && (!Truthy(inputText) || !inputText.JStr?) ==> v == Invalid(InputMissing)
    ensures AppNameOk(p, appName) && inputText.JStr? && inputText.s != "" && Utf8.ByteLen(inputText.s) > MaxInputBytes ==>
      v == Invalid(InputTooLarge)
    ensures AppNameOk(p, appName) && InputTextOk(inputText) && (!Truthy(sessionId) || !sessionId.JStr?) ==>
      v == Invalid(SessionIdMissing)
    ensures AppNameOk(p, appName) && InputTextOk(inputText) && sessionId.JStr? && sessionId.s != "" && |sessionId.s| > MaxSessionIdLen
      ==> v == Invalid(SessionIdTooLong)
    ensures (AppNameOk(p, appName) && InputTextOk(inputText) && sessionId.JStr? && 1 <= |sessionId.s| <= MaxSessionIdLen
             && !Identifier(p, sessionId.s, MaxSessionIdLen)) ==> v == Invalid(SessionIdBadChars)
  {
    if !Truthy(appName) || !appName.JStr? then Invalid(AppNameMissing)
    else if |appName.s| > MaxAppNameLen then Invalid(AppNameTooLong)
    else if !(forall i :: 0 <= i < |appName.s| ==> IdentChar(p, appName.s[i])) then Invalid(AppNameBadChars)
    else if !Truthy(inputText) || !inputText.JStr? then Invalid(InputMissing)
    else if Utf8.ByteLen(inputText.s) > MaxInputBytes then Invalid(InputTooLarge)
    else if !Truthy(sessionId) || !sessionId.JStr? then Invalid(SessionIdMissing)
    else if |sessionId.s| > MaxSessionIdLen then Invalid(SessionIdTooLong)
    else if !(forall i :: 0 <= i < |sessionId.s| ==> IdentChar(p, sessionId.s[i])) then Invalid(SessionIdBadChars)
    else Valid
  }

  /**
   * An input text of at most 25600 code points always fits the byte limit,
   * and one of more than 102400 code points never does.
   */
  lemma InputSizeByCodePoints(s: string)
    ensures |s| <= MaxInputBytes / 4 ==> Utf8.ByteLen(s) <= MaxInputBytes
    ensures |s| > MaxInputBytes ==> Utf8.ByteLen(s) > MaxInputBytes
  {
    Utf8.ByteLenBounds(s);
  }

  /** A validated app name holds no ':', the separator of the cache key's pre-image. */
  lemma IdentifierHasNoColon(p: Prims, s: string, maxLen: nat)
    requires AsciiFaithful(p)
    requires Identifier(p, s, maxLen)
    ensures ':' !in s
  {
  }
}
