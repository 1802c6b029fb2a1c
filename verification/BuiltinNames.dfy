/** Which built-in a word names, letter by letter. */
module BuiltinNames {
  import opened Basics
  import opened Text
  import opened Syntax
  import opened Words
  import Render

  /** The names as they are documented, here all in capitals. */
  function Capital(b: Builtin): string {
    match b
    case IsEmpty => "ISEMPTY"
    case IsBlank => "ISBLANK"
    case Contains => "CONTAINS"
    case StartsWithFn => "STARTSWITH"
    case EndsWithFn => "ENDSWITH"
    case EqualsIgnoreCase => "EQUALSIGNORECASE"
    case TrimFn => "TRIM"
    case Lower => "LOWER"
    case Upper => "UPPER"
    case Length => "LENGTH"
    case TryNumber => "TRYNUMBER"
    case TextFn => "TEXT"
  }

  predicate IsLowerOf(name: Utf16, letters: string) {
    |name| == |letters| && forall k | 0 <= k < |name| :: name[k] == letters[k] as int + 32
  }

  lemma TestNames(b: Builtin)
    requires b.IsEmpty? || b.IsBlank? || b.Contains? || b.StartsWithFn? || b.EndsWithFn?
    ensures Capitals(Capital(b)) && IsLowerOf(BuiltinName(b), Capital(b))
  {}

  lemma LongName()
    ensures Capitals(Capital(EqualsIgnoreCase)) && IsLowerOf(BuiltinName(EqualsIgnoreCase), Capital(EqualsIgnoreCase))
  {}

  lemma ValueNames(b: Builtin)
    requires b.TrimFn? || b.Lower? || b.Upper? || b.Length? || b.TryNumber? || b.TextFn?
    ensures Capitals(Capital(b)) && IsLowerOf(BuiltinName(b), Capital(b))
  {}

  lemma NameIsLowerOf(b: Builtin)
    ensures Capitals(Capital(b)) && IsLowerOf(BuiltinName(b), Capital(b))
  {
    if b.EqualsIgnoreCase? {
      LongName();
    } else if b.TrimFn? || b.Lower? || b.Upper? || b.Length? || b.TryNumber? || b.TextFn? {
      ValueNames(b);
    } else {
      TestNames(b);
    }
  }

  lemma LowerIsEitherCase(word: Utf16, letters: string, lower: Utf16)
    requires Capitals(letters) && IsLowerOf(lower, letters)
    ensures AsciiLower(word) == lower <==> EitherCase(word, letters)
  {
    if AsciiLower(word) == lower {
      forall k | 0 <= k < |letters| ensures word[k] == letters[k] as int || word[k] == letters[k] as int + 32 {
        assert LowerUnit(word[k]) == AsciiLower(word)[k] == lower[k];
        assert 'A' <= letters[k] <= 'Z';
      }
    }
    if EitherCase(word, letters) {
      forall k | 0 <= k < |word| ensures AsciiLower(word)[k] == lower[k] {
        assert 'A' <= letters[k] <= 'Z';
      }
    }
  }

  lemma {:induction false} FoundIsNamed(name: Utf16, k: nat)
    requires k <= 12 && FindBuiltin(name, k).Some?
    ensures BuiltinName(FindBuiltin(name, k).value) == name
    decreases 12 - k
  {
    if BuiltinName(BuiltinAt(k)) != name { FoundIsNamed(name, k + 1); }
  }

  /** A word names a built-in exactly when it has its letters, in any mixture of cases. */
  lemma NamesInAnyCase(word: Utf16, b: Builtin)
    ensures GetBuiltin(word) == Some(b) <==> EitherCase(word, Capital(b))
  {
    NameIsLowerOf(b);
    LowerIsEitherCase(word, Capital(b), BuiltinName(b));
    Render.FindsName(b, Render.TableIndex(b), 0);
    if GetBuiltin(word) == Some(b) { FoundIsNamed(AsciiLower(word), 0); }
  }
}
