/** The records of src/settings.hpp as values, and the parts of a settings object that
    requests read; a few facts about characters. */
module Records {
  import opened Pakets

  datatype Option<T> = None | Some(value: T)

  function Or<T>(o: Option<T>, default: T): T {
    match o case Some(v) => v case None => default
  }

  datatype BasicRecord = BasicRecord(
    address: string, port: uint16, status: string, login: string,
    drop: bool, mcsman: bool, vars: map<string, string>)

  datatype ServerRecord = ServerRecord(basic: BasicRecord, fml: Option<BasicRecord>)

  datatype Conf = Conf(
    distributed: bool, domain: string,
    defaultServer: ServerRecord, servers: map<string, ServerRecord>)

  const NUL: char := '\0'

  predicate IsSpace(c: char) {
    c == ' ' || '\t' <= c <= '\r'
  }

  predicate IsAlnum(c: char) {
    '0' <= c <= '9' || 'A' <= c <= 'Z' || 'a' <= c <= 'z'
  }

  const UPPER: string := "ABCDEFGHIJKLMNOPQRSTUVWXYZ"
  const LOWER: string := "abcdefghijklmnopqrstuvwxyz"
  const DIGITS: string := "0123456789"

  lemma Letters(n: nat)
    requires n < 26
    ensures UPPER[n] == (n + 'A' as int) as char && LOWER[n] == (n + 'a' as int) as char
    ensures n < 10 ==> DIGITS[n] == (n + '0' as int) as char
  {
  }

  /** std::isalnum in the "C" locale. */
  lemma AlnumExactly(c: char)
    ensures IsAlnum(c) <==> c in DIGITS || c in UPPER || c in LOWER
  {
    var n := c as int;
    if '0' <= c <= '9' {
      Letters(n - '0' as int);
    } else if 'A' <= c <= 'Z' {
      Letters(n - 'A' as int);
    } else if 'a' <= c <= 'z' {
      Letters(n - 'a' as int);
    }
    forall i | 0 <= i < 26 && (UPPER[i] == c || LOWER[i] == c || (i < 10 && DIGITS[i] == c)) ensures IsAlnum(c) {
      Letters(i);
    }
  }

  /** std::isspace in the "C" locale. */
  lemma SpaceExactly(c: char)
    ensures IsSpace(c) <==> c as int in {0x20, 0x09, 0x0A, 0x0B, 0x0C, 0x0D}
  {
  }
}
