/**
 * The built-in custom validation rules: string-scoped rules whose validators are
 * anchored regular expressions over a character class, each with a label-prefixed
 * message. The expressions are written here as predicates on characters; `Patterns` states
 * each one, and `BuiltInRules` registers them by name.
 */
module Patterns {
  import opened Values

  /** Every character of `s` satisfies `p`: the shape `^[class]*$`. */
  predicate AllChars(s: string, p: char -> bool) {
    forall i :: 0 <= i < |s| ==> p(s[i])
  }

  predicate AllDigits(s: string) {
    forall i :: 0 <= i < |s| ==> IsDigitChar(s[i])
  }

  predicate HalfAlphaChar(c: char) { 'a' <= c <= 'z' || 'A' <= c <= 'Z' }

  predicate HalfAlnumChar(c: char) { HalfAlphaChar(c) || IsDigitChar(c) }

  /** The ASCII symbols: the printable characters that are neither letters, digits nor space. */
  predicate AsciiSymbolChar(c: char) {
    '!' <= c <= '/' || ':' <= c <= '@' || '[' <= c <= '`' || '{' <= c <= '~'
  }

  /** The symbol class of 半角記号 as written: its first range stops at ')' and resumes at '+'. */
  predicate HalfSymbolCharAsWritten(c: char) {
    '!' <= c <= ')' || '+' <= c <= '/' || ':' <= c <= '@' || '[' <= c <= '`' || '{' <= c <= '~'
  }

  /** The symbol class of 半角記号 as the neighbouring rules use it: every ASCII symbol. */
  predicate HalfSymbolChar(c: char) { AsciiSymbolChar(c) }

  predicate HalfAlnumSymbolChar(c: char) { HalfAlnumChar(c) || AsciiSymbolChar(c) }

  /** Half-width katakana (U+FF66..U+FF9F) and the ASCII space. */
  predicate HalfKanaChar(c: char) { '\U{FF66}' <= c <= '\U{FF9F}' || c == ' ' }

  /** Printable ASCII and the half-width katakana block with its punctuation (U+FF61..U+FF9F). */
  predicate HalfWidthChar(c: char) { ' ' <= c <= '~' || '\U{FF61}' <= c <= '\U{FF9F}' }

  predicate FullAlnumChar(c: char) {
    '\U{FF21}' <= c <= '\U{FF3A}' || '\U{FF41}' <= c <= '\U{FF5A}' || '\U{FF10}' <= c <= '\U{FF19}'
  }

  predicate HiraganaChar(c: char) { '\U{3041}' <= c <= '\U{309F}' }

  predicate KatakanaChar(c: char) { '\U{30A1}' <= c <= '\U{30FF}' }

  /** The negated class of 全角文字: anything that is not half-width. */
  predicate FullWidthChar(c: char) { !HalfWidthChar(c) }

  /** The separators a telephone number may contain: the ASCII space and the ASCII symbols. */
  predicate PhoneSeparatorChar(c: char) { c == ' ' || AsciiSymbolChar(c) }

  predicate PhoneChar(c: char) { IsDigitChar(c) || PhoneSeparatorChar(c) }

  // ---------------------------------------------------------------- postal codes

  /** `^\d{3}-\d{4}$` */
  predicate HyphenatedPostalCode(s: string) {
    |s| == 8 && AllDigits(s[..3]) && s[3] == '-' && AllDigits(s[4..])
  }

  /** `^\d{7}$` */
  predicate PlainPostalCode(s: string) {
    |s| == 7 && AllDigits(s)
  }

  /** `^\d{3}-?\d{4}$`: three digits, an optional hyphen, four digits. */
  predicate PostalCode(s: string) {
    && 7 <= |s| <= 8
    && AllDigits(s[..3])
    && (s[3..|s| - 4] == "" || s[3..|s| - 4] == "-")
    && AllDigits(s[|s| - 4..])
  }

  /** The general postal code is exactly the union of its hyphenated and plain forms. */
  lemma PostalCodeIsUnion(s: string)
    ensures PostalCode(s) <==> HyphenatedPostalCode(s) || PlainPostalCode(s)
  {
    if |s| == 7 {
      if PostalCode(s) {
        forall i | 0 <= i < 7 ensures IsDigitChar(s[i]) {
          if i < 3 { assert s[..3][i] == s[i]; } else { assert s[3..][i - 3] == s[i]; }
        }
      }
      if PlainPostalCode(s) {
        assert s[3..3] == "";
      }
    } else if |s| == 8 {
      if PostalCode(s) {
        assert s[3..4][0] == s[3];
      }
      if HyphenatedPostalCode(s) {
        assert s[3..4] == [s[3]];
      }
    }
  }

  // ---------------------------------------------------------------- telephone numbers

  /**
   * `^(\d|[separators])*(\d)+(\d|[separators])*$`: a run of digits, with phone characters
   * on either side.
   */
  ghost predicate PhonePattern(s: string) {
    exists i, j :: 0 <= i < j <= |s| && PhoneRun(s[..i]) && AllDigits(s[i..j]) && PhoneRun(s[j..])
  }

  predicate PhoneRun(s: string) {
    forall k :: 0 <= k < |s| ==> PhoneChar(s[k])
  }

  /** Phone characters throughout, and at least one digit. */
  predicate PhoneNumber(s: string) {
    PhoneRun(s) && exists k :: 0 <= k < |s| && IsDigitChar(s[k])
  }

  lemma PhonePatternCharacterised(s: string)
    ensures PhonePattern(s) <==> PhoneNumber(s)
  {
    if PhonePattern(s) {
      var i, j :| 0 <= i < j <= |s| && PhoneRun(s[..i]) && AllDigits(s[i..j]) && PhoneRun(s[j..]);
      assert s[i..j][0] == s[i];
      forall k | 0 <= k < |s| ensures PhoneChar(s[k]) {
        if k < i { assert s[..i][k] == s[k]; }
        else if k < j { assert s[i..j][k - i] == s[k]; }
        else { assert s[j..][k - j] == s[k]; }
      }
    }
    if PhoneNumber(s) {
      var k :| 0 <= k < |s| && IsDigitChar(s[k]);
      assert s[k..k + 1] == [s[k]];
      assert PhoneRun(s[..k]);
      assert PhoneRun(s[k + 1..]);
    }
  }

  // ---------------------------------------------------------------- relations between classes

  /** Any string of digits, or of letters, is a string of letters and digits. */
  lemma HalfAlnumCoversDigitsAndLetters(s: string)
    ensures AllChars(s, IsDigitChar) ==> AllChars(s, HalfAlnumChar)
    ensures AllChars(s, HalfAlphaChar) ==> AllChars(s, HalfAlnumChar)
  {
  }

  /** Every half-width kana string is a half-width string; every hiragana, katakana or full-width alphanumeric string is full-width. */
  lemma WidthClassesNest(s: string)
    ensures AllChars(s, HalfKanaChar) ==> AllChars(s, HalfWidthChar)
    ensures AllChars(s, HiraganaChar) ==> AllChars(s, FullWidthChar)
    ensures AllChars(s, KatakanaChar) ==> AllChars(s, FullWidthChar)
    ensures AllChars(s, FullAlnumChar) ==> AllChars(s, FullWidthChar)
  {
  }

  /** 全角文字 and 半角文字 share only the empty string. */
  lemma HalfAndFullWidthDisjoint(s: string)
    ensures AllChars(s, HalfWidthChar) && AllChars(s, FullWidthChar) <==> s == ""
  {
    if s != "" {
      assert !FullWidthChar(s[0]) || !HalfWidthChar(s[0]);
    }
  }

  /**
   * As written, 半角英数字記号 accepts "*" although neither 半角英数字 nor 半角記号 does,
   * and 電話番号 accepts "1*" although its separators are meant to be the symbols.
   */
  lemma AsteriskMissingFromSymbolsAsWritten()
    ensures AllChars("*", HalfAlnumSymbolChar)
    ensures !AllChars("*", HalfAlnumChar) && !AllChars("*", HalfSymbolCharAsWritten)
    ensures PhoneNumber("1*") && !HalfSymbolCharAsWritten('*')
  {
    assert "*"[0] == '*';
    assert "1*"[0] == '1' && "1*"[1] == '*';
  }

  /** With the symbol class of 半角記号 corrected, 半角英数字記号 is exactly 半角英数字 ∪ 半角記号, character by character. */
  lemma AlnumSymbolIsUnion(s: string)
    ensures AllChars(s, HalfAlnumSymbolChar) <==> AllChars(s, c => HalfAlnumChar(c) || HalfSymbolChar(c))
    ensures forall c :: PhoneSeparatorChar(c) <==> c == ' ' || HalfSymbolChar(c)
  {
  }
}

module BuiltIns {
  import opened Wrappers
  import opened Values
  import opened Rules
  import opened Items
  import opened CustomRules
  import opened ValidationEvent
  import opened Patterns

  /** A built-in rule: string-scoped, regular-expression validator, message "{label}" + suffix. */
  function BuiltIn(pattern: string -> bool, suffix: string): (r: CustomRule)
    ensures r.scope == StringScope && r.message.MessageFn?
    ensures forall labelText, v, item :: FailureMessage(r, labelText, v, item) == labelText + suffix
    ensures forall s, item :: r.validator(Str(s), item) == pattern(s)
    ensures forall item :: !r.validator(Undefined, item)
  {
    StringCustomValidationRule(RegExpValidator(pattern), MessageFn((labelText: string, v: Value, item: Item) => labelText + suffix))
  }

  /** The 半角記号 rule, with the corrected symbol class: it accepts exactly the strings of ASCII symbols. */
  function HalfSymbolRule(): (r: CustomRule)
    ensures r.scope == StringScope
    ensures forall s, item :: r.validator(Str(s), item) <==> forall i :: 0 <= i < |s| ==> AsciiSymbolChar(s[i])
    ensures forall item :: r.validator(Str("*"), item)
  {
    BuiltIn(s => AllChars(s, HalfSymbolChar), "は半角記号で入力してください")
  }

  /** The registry of built-in rules, by name, as the program registers them. */
  function BuiltInRules(): (m: map<string, CustomRule>)
    ensures "半角記号" in m && m["半角記号"] == HalfSymbolRuleAsWritten()
  {
    map[
      "半角数字" := BuiltIn(s => AllDigits(s), "は半角数字で入力してください"),
      "半角英字" := BuiltIn(s => AllChars(s, HalfAlphaChar), "は半角英字で入力してください"),
      "半角記号" := HalfSymbolRuleAsWritten(),
      "半角カナ" := BuiltIn(s => AllChars(s, HalfKanaChar), "は半角カナで入力してください"),
      "半角英数字" := BuiltIn(s => AllChars(s, HalfAlnumChar), "は半角英数字で入力してください"),
      "半角英数字記号" := BuiltIn(s => AllChars(s, HalfAlnumSymbolChar), "は半角英数字記号で入力してください"),
      "半角文字" := BuiltIn(s => AllChars(s, HalfWidthChar), "は半角文字で入力してください"),
      "全角英数字" := BuiltIn(s => AllChars(s, FullAlnumChar), "は全角英数字で入力してください"),
      "全角ひらがな" := BuiltIn(s => AllChars(s, HiraganaChar), "は全角ひらがなで入力してください"),
      "全角カタカナ" := BuiltIn(s => AllChars(s, KatakanaChar), "は全角カタカナで入力してください"),
      "全角文字" := BuiltIn(s => AllChars(s, FullWidthChar), "は全角文字で入力してください"),
      "郵便番号" := BuiltIn(s => PostalCode(s), "は XXX-XXXX 又は XXXXXXX 形式で入力してください"),
      "郵便番号(ハイフンあり)" := BuiltIn(s => HyphenatedPostalCode(s), "は XXX-XXXX 形式で入力してください"),
      "郵便番号(ハイフンなし)" := BuiltIn(s => PlainPostalCode(s), "は XXXXXXX 形式で入力してください"),
      "電話番号" := BuiltIn(s => PhoneNumber(s), "は電話番号の形式で入力してください")
    ]
  }

  /** The registry with the corrected 半角記号 rule; every other entry is the program's. */
  function CorrectedBuiltInRules(): (m: map<string, CustomRule>)
    ensures m.Keys == BuiltInRules().Keys
    ensures m["半角記号"] == HalfSymbolRule()
    ensures forall name :: name in m && name != "半角記号" ==> m[name] == BuiltInRules()[name]
  {
    BuiltInRules()["半角記号" := HalfSymbolRule()]
  }

  /**
   * Through the custom dispatch, an Item naming 半角記号 reports "*" as an error with the
   * rule's message under the program's registry, and accepts it under the corrected one.
   */
  lemma SymbolRuleOnAsterisk(item: Item)
    requires CustomRuleNameOf(item.rule) == Some("半角記号")
    ensures CustomValidateItemHasError(Some(BuiltInRules()), Str("*"), item)
            == Verdict(true, item.labelText + "は半角記号で入力してください")
    ensures CustomValidateItemHasError(Some(CorrectedBuiltInRules()), Str("*"), item) == Verdict(false, "")
  {
  }

  /** The 半角記号 rule as written, with the class that omits '*'. */
  function HalfSymbolRuleAsWritten(): (r: CustomRule)
    ensures r.scope == StringScope
    ensures forall item :: !r.validator(Str("*"), item)
  {
    assert !AllChars("*", HalfSymbolCharAsWritten) by { assert "*"[0] == '*'; }
    BuiltIn(s => AllChars(s, HalfSymbolCharAsWritten), "は半角記号で入力してください")
  }

  /** Every built-in is string-scoped: its guard admits undefined and strings and rejects numbers. */
  lemma BuiltInsAreStringScoped(name: string, s: string, n: int)
    requires name in BuiltInRules()
    ensures CanApplyValue(BuiltInRules()[name], Undefined)
    ensures CanApplyValue(BuiltInRules()[name], Str(s))
    ensures !CanApplyValue(BuiltInRules()[name], Num(n))
  {
  }

  /** Every built-in message starts with the Item's label. */
  lemma BuiltInMessagesStartWithLabel(name: string, labelText: string, v: Value, item: Item)
    requires name in BuiltInRules()
    ensures var m := FailureMessage(BuiltInRules()[name], labelText, v, item);
            |labelText| <= |m| && m[..|labelText|] == labelText
    ensures name == "半角数字" ==>
              FailureMessage(BuiltInRules()[name], labelText, v, item) == labelText + "は半角数字で入力してください"
  {
  }

  /**
   * Through the custom dispatch, an Item naming 半角数字 has an error for a string exactly
   * when the string is not all digits; the empty string passes, and undefined fails.
   */
  lemma DigitsRuleThroughDispatch(item: Item, s: string)
    requires CustomRuleNameOf(item.rule) == Some("半角数字")
    ensures var r := CustomValidateItemHasError(Some(BuiltInRules()), Str(s), item);
            r.hasError <==> !AllDigits(s)
    ensures !CustomValidateItemHasError(Some(BuiltInRules()), Str(""), item).hasError
    ensures CustomValidateItemHasError(Some(BuiltInRules()), Undefined, item)
            == Verdict(true, item.labelText + "は半角数字で入力してください")
  {
    assert "半角数字" in BuiltInRules();
  }

  /** Through the registry, the general postal-code rule accepts exactly what one of the two specific ones accepts. */
  lemma PostalRulesAgree(s: string, item: Item)
    ensures BuiltInRules()["郵便番号"].validator(Str(s), item) <==>
              BuiltInRules()["郵便番号(ハイフンあり)"].validator(Str(s), item)
              || BuiltInRules()["郵便番号(ハイフンなし)"].validator(Str(s), item)
  {
    PostalCodeIsUnion(s);
  }
}
