/**
 * The popover's display formatters: dollar amounts from integer cents and
 * readable model names. The token-count formatter is `TokenFormat.FormatTokens`,
 * shared with the tray.
 */
module Format {
  import opened Common
  import opened Decimal
  import opened Text
  import opened Seqs

  /** The two digits of a remainder below 100, with a leading zero. */
  function TwoDigits(r: nat): (s: string)
    requires r < 100
    ensures |s| == 2 && AllDigits(s) && DigitsValue(s) == r
  {
    var s := [DigitChar(r / 10), DigitChar(r % 10)];
    DigitsValueOfTwo(s);
    s
  }

  function Abs(x: int): nat {
    if x < 0 then -x else x
  }

  /** `$${(cents / 100).toFixed(2)}`: "$", a minus sign for negative amounts, dollars, ".", two cent digits. */
  function FormatCostCents(cents: int): string {
    var a := Abs(cents);
    "$" + (if cents < 0 then "-" else "") + NatToString(a / 100) + "." + TwoDigits(a % 100)
  }

  /** Reads a dollar string of the shape `FormatCostCents` writes back into cents. */
  function ParseCostCents(s: string): Option<int> {
    if |s| < 5 || s[0] != '$' || s[|s| - 3] != '.' then None
    else
      var negative := s[1] == '-';
      var whole := if negative then s[2..|s| - 3] else s[1..|s| - 3];
      var cents := s[|s| - 2..];
      if whole == [] || !AllDigits(whole) || !AllDigits(cents) then None
      else
        var v := DigitsValue(whole) * 100 + DigitsValue(cents);
        Some(if negative then -v else v)
  }

  /**
   * Every amount of cents reads back from its dollar string, and the string
   * is spelled as `toFixed(2)` spells it: a minus sign exactly for negative
   * amounts, and dollars without leading zeros.
   */
  lemma {:induction false} CostCentsRoundTrip(cents: int)
    ensures ParseCostCents(FormatCostCents(cents)) == Some(cents)
    ensures var s := FormatCostCents(cents);
      && |s| >= 5
      && (s[1] == '-' <==> cents < 0)
      && var w := s[(if cents < 0 then 2 else 1)..|s| - 3];
         w == NatToString(DigitsValue(w))
  {
    var a := Abs(cents);
    var whole := NatToString(a / 100);
    var frac := TwoDigits(a % 100);
    var sign := if cents < 0 then "-" else "";
    assert FormatCostCents(cents) == "$" + sign + whole + "." + frac;
    assert DigitsValue(whole) == a / 100 by {
      NatToStringRoundTrip(a / 100);
    }
    ParseLayout(sign, whole, frac);
  }

  /** The layout "$", optional "-", digits, ".", two digits parses to its signed value. */
  lemma {:induction false} ParseLayout(sign: string, whole: string, frac: string)
    requires sign == "-" || sign == ""
    requires |whole| >= 1 && AllDigits(whole) && |frac| == 2 && AllDigits(frac)
    ensures var s := "$" + sign + whole + "." + frac;
      && |s| >= 5
      && (s[1] == '-' <==> sign == "-")
      && s[|sign| + 1..|s| - 3] == whole
    ensures var v := DigitsValue(whole) * 100 + DigitsValue(frac);
      ParseCostCents("$" + sign + whole + "." + frac) == Some(if sign == "-" then -v else v)
  {
    var s := "$" + sign + whole + "." + frac;
    assert s[|s| - 3] == '.';
    assert s[|s| - 2..] == frac;
    assert IsDigit(whole[0]);
    if sign == "-" {
      assert s[1] == '-';
      assert s[2..|s| - 3] == whole;
    } else {
      assert s[1] == whole[0];
      assert s[1..|s| - 3] == whole;
    }
  }

  /** Whole and small amounts: "$0.00", "$0.01", "$1.00". */
  lemma {:induction false} CostCentsExamplesSmall()
    ensures FormatCostCents(0) == "$0.00"
    ensures FormatCostCents(1) == "$0.01"
    ensures FormatCostCents(100) == "$1.00"
  {
  }

  /** Three dollar digits: 12345 cents is "$123.45". */
  lemma {:induction false} CostCentsExampleDollars()
    ensures FormatCostCents(12345) == "$123.45"
  {
    assert NatToString(12) == "12" by {
      assert NatToString(12) == NatToString(1) + [DigitChar(2)];
    }
    assert NatToString(123) == "123" by {
      assert NatToString(123) == NatToString(12) + [DigitChar(3)];
    }
    assert TwoDigits(45) == "45";
    assert FormatCostCents(12345) == "$" + "" + NatToString(123) + "." + TwoDigits(45);
  }

  /** The minus sign follows the dollar sign: -500 cents is "$-5.00". */
  lemma {:induction false} CostCentsExampleNegative()
    ensures FormatCostCents(-500) == "$-5.00"
  {
    assert Abs(-500) == 500;
    assert TwoDigits(0) == "00";
  }

  const ClaudePrefix: string := "claude-"

  /** The dash-separated parts of a model name once the first "claude-" is removed. */
  function NameParts(model: string): seq<string> {
    Split(ReplaceFirst(model, ClaudePrefix, ""), '-')
  }

  /** `model.replace("claude-", "").split("-").map(capitalise).join(" ")`. */
  function FormatModelName(model: string): string {
    Join(MapSeq(NameParts(model), Capitalize), ' ')
  }

  /**
   * For a name without spaces, the words of the result are the parts of the
   * name (after the first "claude-" is removed, split on "-"), in order,
   * each with its first letter upper-cased and the rest unchanged.
   */
  lemma {:induction false} FormatModelNameWords(model: string)
    requires ' ' !in model
    ensures var parts := NameParts(model);
      var words := Split(FormatModelName(model), ' ');
      && |words| == |parts|
      && forall k :: 0 <= k < |parts| ==> words[k] == Capitalize(parts[k])
  {
    var stripped := ReplaceFirst(model, ClaudePrefix, "");
    assert ' ' !in stripped by {
      match IndexOf(model, ClaudePrefix)
      case None =>
      case Some(i) =>
        assert stripped == model[..i] + model[i + |ClaudePrefix|..];
        assert forall c :: c in model[..i] ==> c in model;
        assert forall c :: c in model[i + |ClaudePrefix|..] ==> c in model;
    }
    var parts := NameParts(model);
    SplitKeepsOut(stripped, '-', ' ');
    var words := MapSeq(parts, Capitalize);
    forall k | 0 <= k < |words|
      ensures ' ' !in words[k]
    {
      var p := parts[k];
      if p != [] {
        assert words[k] == [ToUpper(p[0])] + p[1..];
        assert p[0] in p;
        assert forall c :: c in p[1..] ==> c in p;
      }
    }
    SplitJoin(words, ' ');
  }

  /** A name without "claude-" is only split and capitalised. */
  lemma {:induction false} FormatModelNameWithoutPrefix(model: string)
    requires forall j :: 0 <= j <= |model| ==> !OccursAt(model, ClaudePrefix, j)
    ensures FormatModelName(model) == Join(MapSeq(Split(model, '-'), Capitalize), ' ')
  {
  }

  /** Only the first "claude-" is removed, wherever it occurs. */
  lemma {:induction false} NamePartsFirstOccurrence(model: string, i: nat)
    requires OccursAt(model, ClaudePrefix, i)
    requires forall j :: 0 <= j < i ==> !OccursAt(model, ClaudePrefix, j)
    ensures NameParts(model) == Split(model[..i] + model[i + |ClaudePrefix|..], '-')
  {
    assert ReplaceFirst(model, ClaudePrefix, "") == model[..i] + "" + model[i + |ClaudePrefix|..];
    assert model[..i] + "" == model[..i];
  }

  /**
   * Formatting a name whose parts (after removing the first "claude-") are
   * known: the helper behind the examples below.
   */
  lemma {:induction false} FormatModelNameFromParts(model: string, parts: seq<string>)
    requires |parts| >= 1 && forall k :: 0 <= k < |parts| ==> '-' !in parts[k]
    requires ReplaceFirst(model, ClaudePrefix, "") == Join(parts, '-')
    ensures FormatModelName(model) == Join(MapSeq(parts, Capitalize), ' ')
  {
    SplitJoin(parts, '-');
  }

  lemma {:induction false} OpusStripped()
    ensures ReplaceFirst("claude-opus-4-6", ClaudePrefix, "") == "opus-4-6"
  {
    assert "claude-opus-4-6" == ClaudePrefix + "opus-4-6";
    ReplaceFirstPrefixed(ClaudePrefix, "opus-4-6", "");
  }

  lemma {:induction false} OpusParts()
    ensures ReplaceFirst("claude-opus-4-6", ClaudePrefix, "") == Join(["opus", "4", "6"], '-')
  {
    OpusStripped();
    JoinThree("opus", "4", "6", '-');
    assert "opus" + ['-'] + "4" + ['-'] + "6" == "opus-4-6";
  }

  lemma {:induction false} OpusWords()
    ensures Join(MapSeq(["opus", "4", "6"], Capitalize), ' ') == "Opus 4 6"
  {
    assert Capitalize("opus") == "Opus";
    assert Capitalize("4") == "4";
    assert Capitalize("6") == "6";
    assert MapSeq(["opus", "4", "6"], Capitalize) == ["Opus", "4", "6"];
    assert Join(["4", "6"], ' ') == "4 6";
  }

  /** A dated model id: "claude-" removed, each part capitalised. */
  lemma {:induction false} ModelNameExampleOpus()
    ensures FormatModelName("claude-opus-4-6") == "Opus 4 6"
  {
    OpusParts();
    FormatModelNameFromParts("claude-opus-4-6", ["opus", "4", "6"]);
    OpusWords();
  }

  lemma {:induction false} OtherParts()
    ensures ReplaceFirst("gpt-4", ClaudePrefix, "") == Join(["gpt", "4"], '-')
  {
    var m := "gpt-4";
    forall j | 0 <= j <= |m| ensures !OccursAt(m, ClaudePrefix, j) {
      assert |m| < |ClaudePrefix|;
    }
    assert ReplaceFirst(m, ClaudePrefix, "") == "gpt-4";
  }

  lemma {:induction false} OtherWords()
    ensures Join(MapSeq(["gpt", "4"], Capitalize), ' ') == "Gpt 4"
  {
    assert Capitalize("gpt") == "Gpt";
    assert Capitalize("4") == "4";
    assert MapSeq(["gpt", "4"], Capitalize) == ["Gpt", "4"];
  }

  /** A name without the prefix is only split and capitalised. */
  lemma {:induction false} ModelNameExampleOther()
    ensures FormatModelName("gpt-4") == "Gpt 4"
  {
    OtherParts();
    FormatModelNameFromParts("gpt-4", ["gpt", "4"]);
    OtherWords();
  }

  lemma {:induction false} SingleParts()
    ensures ReplaceFirst("claude-opus", ClaudePrefix, "") == Join(["opus"], '-')
  {
    assert OccursAt("claude-opus", ClaudePrefix, 0);
    assert ReplaceFirst("claude-opus", ClaudePrefix, "") == "opus";
  }

  lemma {:induction false} SingleWords()
    ensures Join(MapSeq(["opus"], Capitalize), ' ') == "Opus"
  {
    assert Capitalize("opus") == "Opus";
    assert MapSeq(["opus"], Capitalize) == ["Opus"];
  }

  /** A single part after the prefix. */
  lemma {:induction false} ModelNameExampleSingle()
    ensures FormatModelName("claude-opus") == "Opus"
  {
    SingleParts();
    FormatModelNameFromParts("claude-opus", ["opus"]);
    SingleWords();
  }
}
