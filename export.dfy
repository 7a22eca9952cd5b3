/**
 * export_ingredients (api/utils.py): the plain-text shopping list with a header naming the
 * user, the date block, one line per ingredient and a footer with the year. The clock
 * (`date.today()`) is the parameter `today`.
 */
module Export {
  import Text

  /** A calendar date as Python's `date` holds it. */
  datatype Date = Date(year: nat, month: nat, day: nat)

  predicate ValidDate(d: Date) {
    1 <= d.year <= 9999 && 1 <= d.month <= 12 && 1 <= d.day <= 31
  }

  /** `%Y`: the year in four digits. */
  function FormatYear(year: nat): (s: string)
    requires 1 <= year <= 9999
    ensures |s| == 4 && Text.AllDigits(s) && Text.DecimalValue(s) == year
  {
    Text.DecimalWidth(year, 4);
    Text.DecimalRoundTrip(year);
    Text.ZeroPadValue(Text.NatToDecimal(year), 4);
    Text.ZeroPad(Text.NatToDecimal(year), 4)
  }

  /** `%m` and `%d`: two digits. */
  function FormatTwoDigits(n: nat): (s: string)
    requires 1 <= n <= 31
    ensures |s| == 2 && Text.AllDigits(s) && Text.DecimalValue(s) == n
  {
    Text.DecimalWidth(n, 2);
    Text.DecimalRoundTrip(n);
    Text.ZeroPadValue(Text.NatToDecimal(n), 2);
    Text.ZeroPad(Text.NatToDecimal(n), 2)
  }

  /** `%Y-%m-%d`: ten characters whose three fields read back as the date. */
  function FormatDate(d: Date): (s: string)
    requires ValidDate(d)
    ensures |s| == 10 && s[4] == '-' && s[7] == '-'
    ensures Text.AllDigits(s[..4]) && Text.DecimalValue(s[..4]) == d.year
    ensures Text.AllDigits(s[5..7]) && Text.DecimalValue(s[5..7]) == d.month
    ensures Text.AllDigits(s[8..]) && Text.DecimalValue(s[8..]) == d.day
  {
    var y := FormatYear(d.year);
    var m := FormatTwoDigits(d.month);
    var dd := FormatTwoDigits(d.day);
    DateFields(y, m, dd);
    y + "-" + m + "-" + dd
  }

  lemma DateFields(y: string, m: string, dd: string)
    requires |y| == 4 && |m| == 2 && |dd| == 2
    ensures var s := y + "-" + m + "-" + dd;
            |s| == 10 && s[4] == '-' && s[7] == '-' && s[..4] == y && s[5..7] == m && s[8..] == dd
  {
  }

  /** Distinct dates print differently. */
  lemma FormatDateInjective(a: Date, b: Date)
    requires ValidDate(a) && ValidDate(b) && FormatDate(a) == FormatDate(b)
    ensures a == b
  {
  }

  /** One row of the values() queryset the caller passes: ingredient__name,
      ingredient__measurement_unit and the summed amount. */
  datatype Entry = Entry(name: string, unit: string, amount: nat)

  /** `- {name} ({unit}) - {amount}`. */
  function EntryLine(e: Entry): (s: string)
    ensures Text.IsPrefix("- " + e.name + " (" + e.unit + ") - ", s)
    ensures var digits := s[|e.name| + |e.unit| + 8..];
            Text.AllDigits(digits) && Text.DecimalValue(digits) == e.amount
            && |digits| >= 1 && (digits[0] == '0' <==> e.amount == 0)
  {
    var digits := Text.NatToDecimal(e.amount);
    Text.DecimalRoundTrip(e.amount);
    var s := "- " + e.name + " (" + e.unit + ") - " + digits;
    assert s[|e.name| + |e.unit| + 8..] == digits;
    s
  }

  /** The comprehension: one line per ingredient, in input order. */
  function EntryLines(es: seq<Entry>): (lines: seq<string>)
    ensures |lines| == |es| && forall i :: 0 <= i < |es| ==> lines[i] == EntryLine(es[i])
  {
    seq(|es|, i requires 0 <= i < |es| => EntryLine(es[i]))
  }

  /** `User shopping list: {username}` and a blank line. */
  function UserBlock(username: string): string {
    "User shopping list: " + username + "\n\n"
  }

  /** `Дата: {today:%Y-%m-%d}` and a blank line. */
  function DateBlock(today: Date): string
    requires ValidDate(today)
  {
    "Дата: " + FormatDate(today) + "\n\n"
  }

  /** The first two blocks. */
  function Header(username: string, today: Date): string
    requires ValidDate(today)
  {
    UserBlock(username) + DateBlock(today)
  }

  /** The closing block: a blank line, then the application name and the year. */
  function Footer(today: Date): string
    requires ValidDate(today)
  {
    "\n\nFoodgram (" + FormatYear(today.year) + ")"
  }

  /** The three parts of a concatenation can be read back from it. */
  lemma Parts(head: string, body: string, foot: string)
    ensures var s := head + body + foot;
            |s| == |head| + |body| + |foot| && s[..|head|] == head
            && s[|head|..|s| - |foot|] == body && s[|s| - |foot|..] == foot
  {
  }

  /** export_ingredients: the header, then the ingredient lines joined by '\n', then the
      footer; an empty list still yields the header and the footer. */
  method ExportIngredients(username: string, today: Date, ingredients: seq<Entry>) returns (shoppingList: string)
    requires ValidDate(today)
    ensures var head := Header(username, today);
            var foot := Footer(today);
            |shoppingList| == |head| + |Text.Join(EntryLines(ingredients), "\n")| + |foot|
            && shoppingList[..|head|] == head
            && shoppingList[|head|..|shoppingList| - |foot|] == Text.Join(EntryLines(ingredients), "\n")
            && shoppingList[|shoppingList| - |foot|..] == foot
    ensures ingredients == [] ==> shoppingList == Header(username, today) + Footer(today)
  {
    shoppingList := UserBlock(username);
    shoppingList := shoppingList + DateBlock(today);
    var body := Text.Join(EntryLines(ingredients), "\n");
    shoppingList := shoppingList + body;
    shoppingList := shoppingList + Footer(today);
    Parts(Header(username, today), body, Footer(today));
  }
}
