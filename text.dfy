/** Upper-casing of group names, as `strings.ToUpper` does it for ASCII letters. */
module Text {

  predicate IsLower(c: char) {
    'a' <= c <= 'z'
  }

  function UpperChar(c: char): char {
    if IsLower(c) then (c as int - 'a' as int + 'A' as int) as char else c
  }

  /** No character of `s` is a lower-case ASCII letter. */
  predicate IsUpper(s: string) {
    forall i :: 0 <= i < |s| ==> !IsLower(s[i])
  }

  /** The upper-case form of `s`: every lower-case letter replaced by its capital,
      every other character kept. */
  function Upper(s: string): (r: string)
    ensures |r| == |s|
    ensures forall i :: 0 <= i < |s| ==> r[i] == UpperChar(s[i])
    ensures IsUpper(r)
  {
    if s == [] then [] else [UpperChar(s[0])] + Upper(s[1..])
  }

  /** Text that is already upper-case is left as it is, so upper-casing twice is
      upper-casing once. */
  lemma UpperKeepsUpper(s: string)
    requires IsUpper(s)
    ensures Upper(s) == s
  {
  }

  /** The group names of the filter test, upper-cased. */
  lemma UpperTeste()
    ensures Upper("teste") == "TESTE"
  {
    var u := Upper("teste");
    assert u[0] == 'T' && u[1] == 'E' && u[2] == 'S' && u[3] == 'T' && u[4] == 'E';
  }

  lemma UpperTeste2()
    ensures Upper("teste2") == "TESTE2"
  {
    var u := Upper("teste2");
    assert u[0] == 'T' && u[1] == 'E' && u[2] == 'S' && u[3] == 'T' && u[4] == 'E' && u[5] == '2';
  }
}
