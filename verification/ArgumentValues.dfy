/** Which option an argument spells and which value it gives, by the characters of the arguments. */
module ArgumentValues {
  import opened Basics
  import opened Text
  import opened Arguments

  predicate IsAsciiLetter(c: CodeUnit) { 'A' as int <= c <= 'Z' as int || 'a' as int <= c <= 'z' as int }

  predicate IsNameUnit(c: CodeUnit) {
    IsAsciiLetter(c) || '0' as int <= c <= '9' as int || c == '_' as int || c == '-' as int
  }

  predicate IsName(name: Utf16) {
    name != [] && IsAsciiLetter(name[0]) && forall k | 0 <= k < |name| :: IsNameUnit(name[k])
  }

  /** `--name`, `--name=value`, `-n`, `-n=value` or `-nvalue`. */
  predicate IsSpelled(argument: Utf16, token: OptionToken) {
    if token.isLong then
      && IsName(token.name)
      && argument == ['-' as int, '-' as int] + token.name
                     + if token.attached.Some? then ['=' as int] + token.attached.value else []
    else
      && |token.name| == 1 && IsAsciiLetter(token.name[0])
      && match token.attached
         case None => argument == ['-' as int, token.name[0]]
         case Some(value) =>
           || argument == ['-' as int, token.name[0], '=' as int] + value
           || (value != [] && value[0] != '=' as int && argument == ['-' as int, token.name[0]] + value)
  }

  lemma {:induction false} FirstEquals(name: Utf16, rest: Utf16)
    requires forall k | 0 <= k < |name| :: name[k] != EQUALS
    requires rest != [] ==> rest[0] == EQUALS
    ensures IndexOf(name + rest, EQUALS) == |name|
  {
    if name == [] {
      assert name + rest == rest;
    } else {
      assert (name + rest)[1..] == name[1..] + rest;
      FirstEquals(name[1..], rest);
    }
  }

  lemma LongIsRead(argument: Utf16, token: OptionToken)
    requires token.isLong && IsSpelled(argument, token)
    ensures ParseOptionToken(argument) == Some(token)
  {
    var rest := if token.attached.Some? then [EQUALS] + token.attached.value else [];
    FirstEquals(token.name, rest);
    assert argument == [DASH, DASH] + (token.name + rest);
    assert argument[2..] == token.name + rest;
    assert (token.name + rest)[..|token.name|] == token.name;
    if token.attached.Some? { assert (token.name + rest)[|token.name| + 1..] == token.attached.value; }
  }

  lemma ReadIsLong(argument: Utf16, token: OptionToken)
    requires token.isLong && ParseOptionToken(argument) == Some(token)
    ensures IsSpelled(argument, token)
  {
    var content := argument[2..];
    assert argument == [DASH, DASH] + content;
    if token.attached.Some? {
      assert content == token.name + ([EQUALS] + token.attached.value);
      assert argument == [DASH, DASH] + token.name + ([EQUALS] + token.attached.value);
    } else {
      assert argument == [DASH, DASH] + token.name + [];
    }
  }

  lemma ShortIsRead(argument: Utf16, token: OptionToken)
    requires !token.isLong && IsSpelled(argument, token)
    ensures ParseOptionToken(argument) == Some(token)
  {
    assert token.name == [token.name[0]];
    assert argument[1] == token.name[0] != DASH;
    if token.attached.Some? {
      var value := token.attached.value;
      if argument == [DASH, token.name[0], EQUALS] + value {
        assert argument[2..] == [EQUALS] + value;
      } else {
        assert argument[2..] == value;
      }
    }
  }

  lemma ReadIsShort(argument: Utf16, token: OptionToken)
    requires argument != [] && argument[0] == DASH && !token.isLong && ParseOptionToken(argument) == Some(token)
    ensures IsSpelled(argument, token)
  {
    var remainder := argument[2..];
    assert argument == [DASH, argument[1]] + remainder;
    if remainder != [] && remainder[0] == EQUALS {
      assert argument == [DASH, argument[1], EQUALS] + remainder[1..];
    }
  }

  /** An argument that begins with a dash is read as an option exactly as it spells one. */
  lemma OptionIsAsSpelled(argument: Utf16, token: OptionToken)
    requires argument != [] && argument[0] == '-' as int
    ensures ParseOptionToken(argument) == Some(token) <==> IsSpelled(argument, token)
  {
    if IsSpelled(argument, token) {
      if token.isLong { LongIsRead(argument, token); } else { ShortIsRead(argument, token); }
    }
    if ParseOptionToken(argument) == Some(token) {
      if token.isLong { ReadIsLong(argument, token); } else { ReadIsShort(argument, token); }
    }
  }

  // ---------------------------------------------------------------- values

  predicate IsWritten(s: Utf16, letters: string) {
    |s| == |letters| && forall k | 0 <= k < |s| :: s[k] == letters[k] as int
  }

  lemma BooleanTexts(s: Utf16)
    ensures s == TRUE_TEXT <==> IsWritten(s, "true")
    ensures s == FALSE_TEXT <==> IsWritten(s, "false")
  {}

  /** The scalar a text stands for: only `true` and `false` are flags, and only text the runtime reads is a number. */
  predicate StandsFor(host: Host, text: Utf16, kind: OptionType, value: Scalar) {
    match value
    case Flag(b) => kind.BooleanOption? && IsWritten(text, if b then "true" else "false")
    case Numeric(r) => kind.NumberOption? && Trim(text) != [] && host.number(Trim(text)) == Some(r)
    case Text(s) =>
      && s == text
      && (kind.BooleanOption? ==> !IsWritten(text, "true") && !IsWritten(text, "false"))
      && (kind.NumberOption? ==> Trim(text) == [] || host.number(Trim(text)).None?)
  }

  lemma TextIsConverted(host: Host, text: Utf16, option: Opt, value: Scalar)
    ensures Convert(host, Raw(text), option) == value <==> StandsFor(host, text, option.kind, value)
  {
    BooleanTexts(text);
  }

  predicate Digits(s: Utf16) { s != [] && forall k | 0 <= k < |s| :: '0' as int <= s[k] <= '9' as int }

  /** A dash and digits, and perhaps a point and more digits. */
  ghost predicate LooksNegative(argument: Utf16) {
    exists whole: Utf16, fraction: Utf16 | Digits(whole) ::
      || argument == ['-' as int] + whole
      || (Digits(fraction) && argument == ['-' as int] + whole + ['.' as int] + fraction)
  }

  lemma NegativeIsSpelled(argument: Utf16)
    requires IsNegativeNumber(argument)
    ensures LooksNegative(argument)
  {
    if AllDigits(argument[1..]) {
      assert Digits(argument[1..]) && argument == [DASH] + argument[1..];
    } else {
      var k :| 1 < k < |argument| && argument[k] == DOT && AllDigits(argument[1..k]) && AllDigits(argument[k + 1..]);
      assert Digits(argument[1..k]) && Digits(argument[k + 1..]);
      assert argument == [DASH] + argument[1..k] + [DOT] + argument[k + 1..];
    }
  }

  lemma WholeIsNegative(argument: Utf16, whole: Utf16)
    requires Digits(whole) && argument == [DASH] + whole
    ensures IsNegativeNumber(argument)
  {
    assert argument[1..] == whole;
  }

  lemma PointIsNegative(argument: Utf16, whole: Utf16, fraction: Utf16)
    requires Digits(whole) && Digits(fraction) && argument == [DASH] + whole + [DOT] + fraction
    ensures IsNegativeNumber(argument)
  {
    var k := |whole| + 1;
    assert argument[k] == DOT && argument[1..k] == whole && argument[k + 1..] == fraction;
  }

  lemma NegativeLooks(argument: Utf16)
    ensures IsNegativeNumber(argument) <==> LooksNegative(argument)
  {
    if IsNegativeNumber(argument) {
      NegativeIsSpelled(argument);
    }
    if LooksNegative(argument) {
      var whole: Utf16, fraction: Utf16 :| Digits(whole) && (argument == [DASH] + whole
        || (Digits(fraction) && argument == [DASH] + whole + [DOT] + fraction));
      if argument == [DASH] + whole {
        WholeIsNegative(argument, whole);
      } else {
        PointIsNegative(argument, whole, fraction);
      }
    }
  }

  /** The text an option takes: its attached one, or the next argument if that can be a value of its kind. */
  ghost predicate Takes(args: seq<Utf16>, index: nat, token: OptionToken, kind: OptionType, text: Utf16, additional: nat) {
    if token.attached.Some? then text == token.attached.value && additional == 0
    else
      && additional == 1 && index + 1 < |args| && text == args[index + 1]
      && if kind.BooleanOption? then IsWritten(text, "true") || IsWritten(text, "false")
         else text == [] || text[0] != '-' as int || LooksNegative(text)
  }

  /** An option takes such a text and no other; a Boolean one without is true, and any other one has no value. */
  lemma OptionTakesItsValue(host: Host, args: seq<Utf16>, index: nat, token: OptionToken, option: Opt)
    ensures
      var c := Consume(args, index, token, option);
      && (forall text, additional: nat :: c == Consumption(Raw(text), additional)
            <==> Takes(args, index, token, option.kind, text, additional))
      && (c.value.Raw? ==> StandsFor(host, c.value.s, option.kind, Convert(host, c.value, option)))
      && (!c.value.Raw? && option.kind.BooleanOption? ==> c.additional == 0 && Convert(host, c.value, option) == Flag(true))
      && (!c.value.Raw? && !option.kind.BooleanOption? ==> c == Consumption(NoValue, 0))
  {
    var c := Consume(args, index, token, option);
    if index + 1 < |args| {
      BooleanTexts(args[index + 1]);
      NegativeLooks(args[index + 1]);
    }
    if c.value.Raw? { TextIsConverted(host, c.value.s, option, Convert(host, c.value, option)); }
  }
}
