/**
 * The `"0"`/`"1"` flag decoder that the prescription record applies to each of
 * its boolean fields while it is deserialised (`bool_from_string`).
 */
module Flags {
  import opened Wrappers

  predicate IsFlagText(s: string) {
    s == "0" || s == "1"
  }

  /** The decoder's error text for a value other than `"0"` or `"1"`. */
  function FlagError(s: string): string {
    "expected '0' or '1', got '" + s + "'"
  }

  /** `"1"` is true, `"0"` is false, anything else is an error naming the value. */
  function BoolFromString(s: string): (r: Result<bool, string>)
    ensures r.Success? <==> IsFlagText(s)
    ensures r.Success? ==> (r.value <==> s == "1")
    ensures r.Failure? ==> r.error == FlagError(s)
  {
    if s == "1" then Success(true)
    else if s == "0" then Success(false)
    else Failure(FlagError(s))
  }

  /** The source text of a flag, the inverse of the decoder. */
  function FlagText(b: bool): string {
    if b then "1" else "0"
  }

  lemma DecodeEncode(b: bool)
    ensures BoolFromString(FlagText(b)) == Success(b)
  {
  }

  /** Every accepted text is the text of the flag it decodes to: nothing is coerced. */
  lemma EncodeDecode(s: string)
    requires BoolFromString(s).Success?
    ensures FlagText(BoolFromString(s).value) == s
  {
  }

  /**
   * Decodes a list of flag texts in order and stops at the first bad one, as
   * deserialisation of a record stops at its first failing field.
   */
  function DecodeFlags(texts: seq<string>): (r: Result<seq<bool>, string>)
    ensures r.Success? <==> forall i :: 0 <= i < |texts| ==> IsFlagText(texts[i])
    ensures r.Success? ==> |r.value| == |texts|
    ensures r.Success? ==> forall i :: 0 <= i < |texts| ==> (r.value[i] <==> texts[i] == "1")
    ensures r.Failure? ==> exists i :: FirstFailure(texts, BoolFromString, i) && r.error == FlagError(texts[i])
  {
    var r := MapUntilFailure(texts, BoolFromString);
    assert r.Success? ==> forall i :: 0 <= i < |texts| ==> BoolFromString(texts[i]) == Success(r.value[i]);
    r
  }

  /** The texts of a list of switches decode back to that list. */
  lemma DecodeFlagTexts(bs: seq<bool>, ts: seq<string>)
    requires |ts| == |bs|
    requires forall i :: 0 <= i < |bs| ==> ts[i] == FlagText(bs[i])
    ensures DecodeFlags(ts) == Success(bs)
  {
    var r := DecodeFlags(ts);
    assert r.Success?;
    assert r.value == bs;
  }
}
