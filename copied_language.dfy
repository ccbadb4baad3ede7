/** The `copy_enum!` part of `src/translation.rs`: the crate's `repr(u8)`
    copy of the library's language enum, with `from` and `from_u8`. */
module CopiedLanguage {
  import Foreign

  /** The `copy_enum!` enum: one variant per library language, of the same
      name, declared in the same order and `repr(u8)`. Each variant is
      represented by the library variant it copies. */
  datatype Language = Copy(variant: Foreign.Language)

  const LanguageCount := 100

  /** The declaration index of a variant in the macro's list. */
  function Index(v: Foreign.Language): (d: nat)
    ensures d < 100 && Declared(d) == v
  {
    match v
    case Afrikaans => 0
    case Danish => 1
    case Dutch => 2
    case German => 3
    case English => 4
    case Icelandic => 5
    case Luxembourgish => 6
    case Norwegian => 7
    case Swedish => 8
    case WesternFrisian => 9
    case Yiddish => 10
    case Asturian => 11
    case Catalan => 12
    case French => 13
    case Galician => 14
    case Italian => 15
    case Occitan => 16
    case Portuguese => 17
    case Romanian => 18
    case Spanish => 19
    case Belarusian => 20
    case Bosnian => 21
    case Bulgarian => 22
    case Croatian => 23
    case Czech => 24
    case Macedonian => 25
    case Polish => 26
    case Russian => 27
    case Serbian => 28
    case Slovak => 29
    case Slovenian => 30
    case Ukrainian => 31
    case Estonian => 32
    case Finnish => 33
    case Hungarian => 34
    case Latvian => 35
    case Lithuanian => 36
    case Albanian => 37
    case Armenian => 38
    case Georgian => 39
    case Greek => 40
    case Breton => 41
    case Irish => 42
    case ScottishGaelic => 43
    case Welsh => 44
    case Azerbaijani => 45
    case Bashkir => 46
    case Kazakh => 47
    case Turkish => 48
    case Uzbek => 49
    case Japanese => 50
    case Korean => 51
    case Vietnamese => 52
    case ChineseMandarin => 53
    case Bengali => 54
    case Gujarati => 55
    case Hindi => 56
    case Kannada => 57
    case Marathi => 58
    case Nepali => 59
    case Oriya => 60
    case Panjabi => 61
    case Sindhi => 62
    case Sinhala => 63
    case Urdu => 64
    case Tamil => 65
    case Cebuano => 66
    case Iloko => 67
    case Indonesian => 68
    case Javanese => 69
    case Malagasy => 70
    case Malay => 71
    case Malayalam => 72
    case Sundanese => 73
    case Tagalog => 74
    case Burmese => 75
    case CentralKhmer => 76
    case Lao => 77
    case Thai => 78
    case Mongolian => 79
    case Arabic => 80
    case Hebrew => 81
    case Pashto => 82
    case Farsi => 83
    case Amharic => 84
    case Fulah => 85
    case Hausa => 86
    case Igbo => 87
    case Lingala => 88
    case Luganda => 89
    case NorthernSotho => 90
    case Somali => 91
    case Swahili => 92
    case Swati => 93
    case Tswana => 94
    case Wolof => 95
    case Xhosa => 96
    case Yoruba => 97
    case Zulu => 98
    case HaitianCreole => 99
  }

  function Row0(c: nat): Foreign.Language
    requires c < 25
  {
    match c
    case 0 => Foreign.Afrikaans
    case 1 => Foreign.Danish
    case 2 => Foreign.Dutch
    case 3 => Foreign.German
    case 4 => Foreign.English
    case 5 => Foreign.Icelandic
    case 6 => Foreign.Luxembourgish
    case 7 => Foreign.Norwegian
    case 8 => Foreign.Swedish
    case 9 => Foreign.WesternFrisian
    case 10 => Foreign.Yiddish
    case 11 => Foreign.Asturian
    case 12 => Foreign.Catalan
    case 13 => Foreign.French
    case 14 => Foreign.Galician
    case 15 => Foreign.Italian
    case 16 => Foreign.Occitan
    case 17 => Foreign.Portuguese
    case 18 => Foreign.Romanian
    case 19 => Foreign.Spanish
    case 20 => Foreign.Belarusian
    case 21 => Foreign.Bosnian
    case 22 => Foreign.Bulgarian
    case 23 => Foreign.Croatian
    case _ => Foreign.Czech
  }

  function Row1(c: nat): Foreign.Language
    requires c < 25
  {
    match c
    case 0 => Foreign.Macedonian
    case 1 => Foreign.Polish
    case 2 => Foreign.Russian
    case 3 => Foreign.Serbian
    case 4 => Foreign.Slovak
    case 5 => Foreign.Slovenian
    case 6 => Foreign.Ukrainian
    case 7 => Foreign.Estonian
    case 8 => Foreign.Finnish
    case 9 => Foreign.Hungarian
    case 10 => Foreign.Latvian
    case 11 => Foreign.Lithuanian
    case 12 => Foreign.Albanian
    case 13 => Foreign.Armenian
    case 14 => Foreign.Georgian
    case 15 => Foreign.Greek
    case 16 => Foreign.Breton
    case 17 => Foreign.Irish
    case 18 => Foreign.ScottishGaelic
    case 19 => Foreign.Welsh
    case 20 => Foreign.Azerbaijani
    case 21 => Foreign.Bashkir
    case 22 => Foreign.Kazakh
    case 23 => Foreign.Turkish
    case _ => Foreign.Uzbek
  }

  function Row2(c: nat): Foreign.Language
    requires c < 25
  {
    match c
    case 0 => Foreign.Japanese
    case 1 => Foreign.Korean
    case 2 => Foreign.Vietnamese
    case 3 => Foreign.ChineseMandarin
    case 4 => Foreign.Bengali
    case 5 => Foreign.Gujarati
    case 6 => Foreign.Hindi
    case 7 => Foreign.Kannada
    case 8 => Foreign.Marathi
    case 9 => Foreign.Nepali
    case 10 => Foreign.Oriya
    case 11 => Foreign.Panjabi
    case 12 => Foreign.Sindhi
    case 13 => Foreign.Sinhala
    case 14 => Foreign.Urdu
    case 15 => Foreign.Tamil
    case 16 => Foreign.Cebuano
    case 17 => Foreign.Iloko
    case 18 => Foreign.Indonesian
    case 19 => Foreign.Javanese
    case 20 => Foreign.Malagasy
    case 21 => Foreign.Malay
    case 22 => Foreign.Malayalam
    case 23 => Foreign.Sundanese
    case _ => Foreign.Tagalog
  }

  function Row3(c: nat): Foreign.Language
    requires c < 25
  {
    match c
    case 0 => Foreign.Burmese
    case 1 => Foreign.CentralKhmer
    case 2 => Foreign.Lao
    case 3 => Foreign.Thai
    case 4 => Foreign.Mongolian
    case 5 => Foreign.Arabic
    case 6 => Foreign.Hebrew
    case 7 => Foreign.Pashto
    case 8 => Foreign.Farsi
    case 9 => Foreign.Amharic
    case 10 => Foreign.Fulah
    case 11 => Foreign.Hausa
    case 12 => Foreign.Igbo
    case 13 => Foreign.Lingala
    case 14 => Foreign.Luganda
    case 15 => Foreign.NorthernSotho
    case 16 => Foreign.Somali
    case 17 => Foreign.Swahili
    case 18 => Foreign.Swati
    case 19 => Foreign.Tswana
    case 20 => Foreign.Wolof
    case 21 => Foreign.Xhosa
    case 22 => Foreign.Yoruba
    case 23 => Foreign.Zulu
    case _ => Foreign.HaitianCreole
  }

  /** The variant declared at index `n`, reading the list in rows of 25. */
  function Declared(n: nat): Foreign.Language
    requires n < 100
  {
    if n < 25 then Row0(n) else if n < 50 then Row1(n - 25)
    else if n < 75 then Row2(n - 50) else Row3(n - 75)
  }

  /** The `repr(u8)` discriminant. */
  function Discriminant(l: Language): (d: Foreign.u8)
    ensures d < LanguageCount as Foreign.u8
  {
    Index(l.variant) as Foreign.u8
  }

  /** `from_u8`, a transmute: defined only on the 100 discriminants. */
  function FromU8(n: Foreign.u8): Language
    requires n < LanguageCount as Foreign.u8
  {
    Copy(Declared(n as nat))
  }

  /** `from`: each variant to the library variant of the same name. */
  function ToLibrary(l: Language): Foreign.Language
  {
    l.variant
  }

  /** `from_u8` inverts the discriminant, so distinct variants have distinct
      discriminants. */
  lemma FromU8OfDiscriminant(l: Language)
    ensures FromU8(Discriminant(l)) == l
  {
  }

  lemma DiscriminantInjective(a: Language, b: Language)
    ensures Discriminant(a) == Discriminant(b) ==> a == b
  {
    FromU8OfDiscriminant(a);
    FromU8OfDiscriminant(b);
  }

  /** Each row of the declaration list is read back by `Index`. */
  lemma IndexOfRow0(c: nat)
    requires c < 25
    ensures Index(Row0(c)) == c
  {
  }

  lemma IndexOfRow1(c: nat)
    requires c < 25
    ensures Index(Row1(c)) == c + 25
  {
  }

  lemma IndexOfRow2(c: nat)
    requires c < 25
    ensures Index(Row2(c)) == c + 50
  {
  }

  lemma IndexOfRow3(c: nat)
    requires c < 25
    ensures Index(Row3(c)) == c + 75
  {
  }

  /** `Index` inverts the declaration list: no library language is declared
      twice in the macro's list. */
  lemma IndexOfDeclared(n: nat)
    requires n < 100
    ensures Index(Declared(n)) == n
  {
    if n < 25 { IndexOfRow0(n); }
    else if n < 50 { IndexOfRow1(n - 25); }
    else if n < 75 { IndexOfRow2(n - 50); }
    else { IndexOfRow3(n - 75); }
  }

  /** `from(from_u8(n))` on the 100 discriminants is injective: distinct
      discriminants name distinct library languages. */
  lemma {:induction false} FromU8ToLibraryInjective(n: Foreign.u8, m: Foreign.u8)
    requires n < LanguageCount as Foreign.u8 && m < LanguageCount as Foreign.u8
    ensures ToLibrary(FromU8(n)) == ToLibrary(FromU8(m)) ==> n == m
  {
    IndexOfDeclared(n as nat);
    IndexOfDeclared(m as nat);
  }
}
