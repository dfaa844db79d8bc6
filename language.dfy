/** The two game languages: parsing from a stored string, display names and
    the guessable alphabets. */
module Languages {
  import opened Wrappers
  import opened Text

  datatype Language = ENGLISH | HEBREW

  /** The enum constant's `name`. */
  function Name(l: Language): string {
    match l
    case ENGLISH => "ENGLISH"
    case HEBREW => "HEBREW"
  }

  /** `Language.fromString`: case-insensitive match on "HEBREW"; a missing
      value or any other string falls back to English. */
  function FromString(value: Option<string>): (l: Language)
    ensures l == HEBREW <==> value.Some? && Upper(value.value) == "HEBREW"
    ensures value.None? ==> l == ENGLISH
  {
    match value
    case Some(v) => if Upper(v) == "HEBREW" then HEBREW else ENGLISH
    case None => ENGLISH
  }

  /** Parsing the enum's own name gives the enum back. */
  lemma FromStringName(l: Language)
    ensures FromString(Some(Name(l))) == l
  {
    assert Upper("HEBREW") == "HEBREW";
  }

  /** Only the letter case of the stored string is ignored. */
  lemma FromStringIgnoresCase(s: string)
    ensures FromString(Some(s)) == FromString(Some(Upper(s)))
  {
    UpperIdempotent(s);
  }

  function DisplayName(l: Language): (n: string)
    ensures l == ENGLISH ==> n == "English"
    ensures l == HEBREW ==> n == "\U{05E2}\U{05D1}\U{05E8}\U{05D9}\U{05EA}"
  {
    match l
    case ENGLISH => "English"
    case HEBREW => "\U{05E2}\U{05D1}\U{05E8}\U{05D9}\U{05EA}"
  }

  /** The characters from `lo` to `hi` inclusive, in order (Kotlin's
      `(lo..hi).toList()`), below the surrogate block. */
  function CharRange(lo: char, hi: char): (r: seq<char>)
    requires hi as int < 0xD800
    ensures |r| == if lo <= hi then hi as int - lo as int + 1 else 0
    ensures forall i | 0 <= i < |r| :: r[i] as int == lo as int + i
    decreases hi as int - lo as int
  {
    if lo > hi then []
    else if lo == hi then [lo]
    else [lo] + CharRange((lo as int + 1) as char, hi)
  }

  const HebrewLetters: seq<char> := [
    '\U{05D0}', '\U{05D1}', '\U{05D2}', '\U{05D3}', '\U{05D4}', '\U{05D5}',
    '\U{05D6}', '\U{05D7}', '\U{05D8}', '\U{05D9}', '\U{05DB}', '\U{05DC}',
    '\U{05DE}', '\U{05E0}', '\U{05E1}', '\U{05E2}', '\U{05E4}', '\U{05E6}',
    '\U{05E7}', '\U{05E8}', '\U{05E9}', '\U{05EA}'
  ]

  predicate StrictlyIncreasing(s: seq<char>) {
    forall i, j | 0 <= i < j < |s| :: s[i] < s[j]
  }

  /** The guessable letters: A..Z for English, the 22 Hebrew letters (without
      final forms) for Hebrew; each list is in code-point order and each
      letter is its own upper case. */
  function GetAlphabet(l: Language): (a: seq<char>)
    ensures l == ENGLISH ==> |a| == 26 && a[0] == 'A' && a[25] == 'Z'
    ensures l == ENGLISH ==> forall i | 0 <= i < 26 :: a[i] as int == 'A' as int + i
    ensures l == HEBREW ==> |a| == 22
    ensures StrictlyIncreasing(a) && NoDuplicates(a)
    ensures forall i | 0 <= i < |a| :: UpperChar(a[i]) == a[i]
  {
    match l
    case ENGLISH => CharRange('A', 'Z')
    case HEBREW => HebrewLetters
  }

  /** No letter belongs to both alphabets. */
  lemma AlphabetsDisjoint(c: char)
    ensures !(c in GetAlphabet(ENGLISH) && c in GetAlphabet(HEBREW))
  {
    var e := GetAlphabet(ENGLISH);
    if c in e {
      var i :| 0 <= i < 26 && e[i] == c;
      assert c <= 'Z';
    }
  }
}
