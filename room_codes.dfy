/**
 * Room codes: six characters, each drawn uniformly from an alphabet. The
 * room service and the socket gateway build them with the same loop over
 * different alphabets. The random draws `Math.floor(Math.random() * n)` are
 * passed in as `picks`, each an index below the alphabet's length.
 */
module RoomCodes {

  const CodeLength: nat := 6

  /** The room service's alphabet: A-Z then 0-9. */
  const ServiceAlphabet: string := "ABCDEFGHIJKLMNOPQRSTUVWXYZ0123456789"

  /** The socket gateway's alphabet: no I, O, 0 or 1. */
  const SocketAlphabet: string := "ABCDEFGHJKLMNPQRSTUVWXYZ23456789"

  predicate ValidPicks(alphabet: string, picks: seq<nat>)
  {
    |picks| == CodeLength && forall i :: 0 <= i < |picks| ==> picks[i] < |alphabet|
  }

  /** A well-formed code over `alphabet`. */
  predicate IsCode(alphabet: string, code: string)
  {
    |code| == CodeLength && forall i :: 0 <= i < |code| ==> code[i] in alphabet
  }

  /** The code spelled by `picks`. */
  function CodeOf(alphabet: string, picks: seq<nat>): (code: string)
    requires ValidPicks(alphabet, picks)
    ensures IsCode(alphabet, code)
  {
    seq(|picks|, i requires 0 <= i < |picks| => alphabet[picks[i]])
  }

  /** `for (i = 0; i < 6; i++) code += chars.charAt(pick)`. */
  method BuildCode(alphabet: string, picks: seq<nat>) returns (code: string)
    requires ValidPicks(alphabet, picks)
    ensures code == CodeOf(alphabet, picks)
  {
    code := "";
    var i := 0;
    while i < CodeLength
      invariant 0 <= i <= CodeLength
      invariant code == CodeOf(alphabet, picks)[..i]
    {
      code := code + [alphabet[picks[i]]];
      i := i + 1;
    }
  }

  lemma AlphabetSizes()
    ensures |ServiceAlphabet| == 36 && |SocketAlphabet| == 32
  {
  }

  /** The socket gateway's alphabet leaves out the look-alike characters
   *  I, O, 0 and 1. */
  lemma SocketAlphabetAvoidsLookAlikes()
    ensures forall i :: 0 <= i < |SocketAlphabet| ==> SocketAlphabet[i] !in "IO01"
  {
  }
}
