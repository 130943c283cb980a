/** The letters and digits, written out. */
module Characters {
  const UPPER := "ABCDEFGHIJKLMNOPQRSTUVWXYZ"
  const LOWER := "abcdefghijklmnopqrstuvwxyz"
  const DECIMAL := "0123456789"

  lemma UpperAre(c: char)
    ensures c in UPPER <==> 'A' <= c <= 'Z'
  {
    if 'A' <= c <= 'Z' {
      assert UPPER[c as int - 'A' as int] == c;
    }
  }

  lemma LowerAre(c: char)
    ensures c in LOWER <==> 'a' <= c <= 'z'
  {
    if 'a' <= c <= 'z' {
      assert LOWER[c as int - 'a' as int] == c;
    }
  }

  lemma DecimalAre(c: char)
    ensures c in DECIMAL <==> '0' <= c <= '9'
    ensures c in "abcdef" <==> 'a' <= c <= 'f'
  {
    if '0' <= c <= '9' {
      assert DECIMAL[c as int - '0' as int] == c;
    }
    if 'a' <= c <= 'f' {
      assert "abcdef"[c as int - 'a' as int] == c;
    }
  }
}
