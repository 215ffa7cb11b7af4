/**
 The two pieces of arithmetic the `login` command does when it shows the received
 authorization code: its local `min`, and the prefix of at most twenty characters
 it prints in place of the whole code.
 */
module Display {

  /** How many characters of the authorization code are shown. */
  const PreviewLength: nat := 20

  /** The command's `min` on two integers. */
  function Min(a: int, b: int): (m: int)
    ensures m <= a && m <= b
    ensures m == a || m == b
  {
    if a < b then a else b
  }

  /** `code[:min(len(code), 20)]`: the slice never reaches past the end of the
      code, so a short code is shown whole and a long one is cut at twenty. */
  function CodePreview(code: string): (shown: string)
    ensures |shown| <= PreviewLength && |shown| <= |code|
    ensures shown == code[..|shown|]
    ensures |code| <= PreviewLength ==> shown == code
    ensures PreviewLength <= |code| ==> |shown| == PreviewLength
  {
    var n := Min(|code|, PreviewLength);
    code[..n]
  }
}
