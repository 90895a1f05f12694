/**
 * The library calls the request pipeline makes but whose internals are not
 * modelled: Unicode `str.isalnum`, `json.loads`, `json.dumps(..., sort_keys=True)`
 * and `hashlib.sha256(...).hexdigest()`. They are passed around as function
 * values, so every property proved here holds whatever they compute.
 */
module Prims {

  import opened Options
  import opened Json
  import Utf8

  datatype Prims = Prims(
    /** `c.isalnum()` for one character (Unicode letters and digits). */
    isAlnum: char -> bool,
    /** `json.loads(s)`; None where it raises `JSONDecodeError`. */
    loads: string -> Option<Json>,
    /**
     * `json.dumps(v, sort_keys=True)`: keys are written in sorted order, so
     * the text is a function of the canonical (order-free) value.
     */
    dumpsSorted: Canonical -> string,
    /** `hashlib.sha256(bs).hexdigest()`. */
    sha256Hex: seq<Utf8.byte> -> string)

  predicate IsAsciiAlnum(c: char) {
    ('0' <= c <= '9') || ('a' <= c <= 'z') || ('A' <= c <= 'Z')
  }

  /** On ASCII, `str.isalnum` accepts exactly letters and digits. */
  predicate AsciiFaithful(p: Prims) {
    forall c: char :: c as int < 0x80 ==> (p.isAlnum(c) <==> IsAsciiAlnum(c))
  }
}
