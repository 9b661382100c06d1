/** Which texts the admin API takes for a model id. */
module IdText {
  predicate ValidIdText(s: string) {
    s != "" && |s| <= 256 && forall c :: c in s ==> c >= ' '
  }

  /** One to 256 characters, none of them a control character. */
  lemma IdTextExactly(s: string)
    ensures ValidIdText(s) <==> 1 <= |s| < 257 && !exists i :: 0 <= i < |s| && (s[i] as int) < 32
  {
    forall i | 0 <= i < |s| ensures s[i] in s {}
  }
}
