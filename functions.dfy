/**
 * The field parsers used by the scraper: the month-name table, the
 * month lookup and the year parser.
 */
module Functions {
  import opened Wrappers
  import opened Text
  import opened Numerals

  /** `MONTHS`: each lower-case English month name with its number. */
  const Months: map<string, int> := map[
    "january" := 1, "february" := 2, "march" := 3, "april" := 4,
    "may" := 5, "june" := 6, "july" := 7, "august" := 8,
    "september" := 9, "october" := 10, "november" := 11, "december" := 12]

  /** The month names in calendar order. */
  const MonthNames: seq<string> := [
    "january", "february", "march", "april", "may", "june",
    "july", "august", "september", "october", "november", "december"]

  /** The table's keys are exactly the twelve month names. */
  lemma MonthsKeys()
    ensures |MonthNames| == 12
    ensures forall k :: k in Months <==> k in MonthNames
  {
  }

  /** The names are numbered 1 to 12 in calendar order. */
  lemma MonthsOrder()
    ensures forall i :: 0 <= i < 12 ==> Months[MonthNames[i]] == i + 1
  {
  }

  /** Every number in the table is a month number naming its own key, so no
      two names share a number. */
  lemma MonthsTable()
    ensures forall k :: k in Months ==> 1 <= Months[k] <= 12 && MonthNames[Months[k] - 1] == k
    ensures forall k1, k2 :: k1 in Months && k2 in Months && Months[k1] == Months[k2] ==> k1 == k2
  {
    MonthsKeys();
    MonthsOrder();
    forall k | k in Months
      ensures 1 <= Months[k] <= 12 && MonthNames[Months[k] - 1] == k
    {
      var i :| 0 <= i < 12 && MonthNames[i] == k;
    }
  }

  /** `get_month_number(month_name)`: the number of the month whose name
      equals `month_name` once surrounding whitespace is stripped and letters
      are lowered; any other text raises KeyError, here `None`. */
  function GetMonthNumber(monthName: string): (r: Option<int>)
    ensures r.Some? <==> Lower(Strip(monthName)) in MonthNames
    ensures r.Some? ==> 1 <= r.value <= 12 && MonthNames[r.value - 1] == Lower(Strip(monthName))
  {
    MonthsTable();
    var key := Lower(Strip(monthName));
    if key in Months then Some(Months[key]) else None
  }

  /** The lookup ignores surrounding whitespace and the case of letters. */
  lemma {:induction false} MonthLookupNormalises(w1: string, s: string, w2: string, t: string)
    requires AllSpace(w1) && AllSpace(w2)
    requires EqualIgnoringCase(s, t)
    ensures GetMonthNumber(w1 + s + w2) == GetMonthNumber(t)
  {
    StripPadded(w1, s, w2);
    LowerStrip(s);
    LowerStrip(t);
  }

  /** The lookups the source's own tests make. */
  lemma MonthExamples()
    ensures GetMonthNumber("january") == Some(1)
    ensures GetMonthNumber("february") == Some(2)
  {
    StripNoSpace("january");
    assert Lower("january") == "january";
    StripNoSpace("february");
    assert Lower("february") == "february";
  }

  /** "MARCH" lowercases to "march", its key in the table. */
  lemma LowerMarch()
    ensures Lower("MARCH") == "march" && Lower("march") == "march"
  {
    assert Lower("MARCH") == "march" by {
      forall i | 0 <= i < 5 ensures Lower("MARCH")[i] == "march"[i] {
      }
    }
    assert Lower("march") == "march" by {
      forall i | 0 <= i < 5 ensures Lower("march")[i] == "march"[i] {
      }
    }
  }

  /** Whitespace around a name and upper-case letters are ignored. */
  lemma MonthPaddedUpperExample()
    ensures GetMonthNumber("  MARCH ") == Some(3)
  {
    var w1, name, w2 := "  ", "MARCH", " ";
    assert "  MARCH " == w1 + name + w2;
    LowerMarch();
    MonthLookupNormalises(w1, name, w2, "march");
    StripNoSpace("march");
  }

  /** A name that is not in the table is not a month: there is no default. */
  lemma MonthUnknownExample()
    ensures GetMonthNumber("Januar") == None
  {
    StripNoSpace("Januar");
    assert Lower("Januar") == "januar";
  }

  /** `year` without its last character when that character is "." (at most
      one dot is removed). */
  function DropTrailingDot(year: string): (r: string)
    ensures if |year| > 0 && year[|year| - 1] == '.' then year == r + "." else r == year
  {
    if |year| > 0 && year[|year| - 1] == '.' then year[..|year| - 1] else year
  }

  /** `get_year(year)`: `int(year[:-1])` when the text ends with ".",
      otherwise `int(year)`; text that is not an integer raises ValueError,
      here `None`. */
  function GetYear(year: string): Option<int> {
    ParseInt(DropTrailingDot(year))
  }

  /** Without a trailing dot the whole text is read as `int(year)`, whether
      or not that succeeds. */
  lemma GetYearWithoutDot(year: string)
    requires |year| == 0 || year[|year| - 1] != '.'
    ensures GetYear(year) == ParseInt(year)
  {
  }

  /** A year text accepted with a trailing "." has exactly one: the
      character before that dot is not a dot as well. */
  lemma {:induction false} GetYearAtMostOneDot(year: string)
    requires GetYear(year).Some?
    ensures |year| >= 1 && year[|year| - 1] == '.' ==> |year| >= 2 && year[|year| - 2] != '.'
  {
    var t := DropTrailingDot(year);
    if |year| > 0 && year[|year| - 1] == '.' {
      assert year == t + ".";
      assert Trim([]) == [];
      assert |t| >= 1;
      assert t[|t| - 1] == year[|year| - 2];
      if t[|t| - 1] == '.' {
        ParseIntRejectsTrailing(t);
      }
    }
  }

  /** A digit string and the same string with one "." appended read as the
      same year, its decimal value. */
  lemma {:induction false} GetYearDigits(s: string)
    requires s != [] && AllDigits(s)
    ensures GetYear(s) == Some(DigitsValue(s))
    ensures GetYear(s + ".") == Some(DigitsValue(s))
  {
    ParseDigits(s);
    assert (s + ".")[..|s|] == s;
  }

  /** A lone "." and any text ending in two dots are not years. */
  lemma {:induction false} GetYearRejects(s: string)
    ensures GetYear(".") == None
    ensures GetYear(s + "..") == None
  {
    var t := s + "..";
    assert t[..|t| - 1] == s + ".";
    ParseIntRejectsTrailing(s + ".");
    assert DropTrailingDot(".") == "";
  }

  lemma DigitsValue2024()
    ensures AllDigits("2024") && DigitsValue("2024") == 2024
    ensures AllDigits("2023") && DigitsValue("2023") == 2023
  {
    DigitsValueSnoc("", '2');
    assert "" + ['2'] == "2";
    DigitsValueSnoc("2", '0');
    assert "2" + ['0'] == "20";
    DigitsValueSnoc("20", '2');
    assert "20" + ['2'] == "202";
    DigitsValueSnoc("202", '4');
    assert "202" + ['4'] == "2024";
    DigitsValueSnoc("202", '3');
    assert "202" + ['3'] == "2023";
  }

  /** The parses the source's own tests make. */
  lemma YearExamples()
    ensures GetYear("2024") == Some(2024)
    ensures GetYear("2023.") == Some(2023)
  {
    DigitsValue2024();
    GetYearDigits("2024");
    GetYearDigits("2023");
    assert "2023" + "." == "2023.";
  }

  /** `int()` skips fewer characters than `str.strip()`: a 0x1C before the
      dot survives the field's strip and makes the year text fail, though
      `strip()` would have dropped it. */
  lemma YearWithSeparatorRejected()
    ensures Strip("2023" + [28 as char]) == "2023"
    ensures GetYear("2023" + [28 as char] + ".") == None
  {
    var t := "2023" + [28 as char];
    assert (t + ".")[..|t|] == t;
    assert t[..|t| - 1] == "2023";
    StripNoSpace("2023");
    ParseIntRejectsTrailing(t);
  }
}
