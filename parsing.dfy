/**
 * The three text formats the bot decodes (main.py):
 *  - inline-button tokens "cat_N", "prod_N", "add_N", read back with int(data.split("_")[1]);
 *  - the price-change payload "<product id> <new price>", read with text.split() and float();
 *  - the add-product command "/addprod Category | Name | Description | Price".
 * Numbers are whole numerals (see PyText.ParseInteger).
 */
module Parsing {
  import opened Wrappers
  import opened PyText

  // ---------------------------------------------------------------------------
  // Inline-button tokens

  /** The button token the keyboards build: f"{prefix}_{id}". */
  function Token(prefix: string, id: int): string {
    prefix + "_" + ShowInt(id)
  }

  /** int(data.split("_")[1]); None where Python raises (no "_", or a second field that is not a numeral). */
  function CallbackId(data: string): Option<int> {
    var fields := Split(data, "_");
    if |fields| < 2 then None else ParseInteger(fields[1])
  }

  /** Reading back a token built by the keyboards gives its id, for every prefix without "_". */
  lemma CallbackIdOfToken(prefix: string, id: int)
    requires '_' !in prefix
    ensures CallbackId(Token(prefix, id)) == Some(id)
  {
    var digits := ShowInt(id);
    FirstOccurrenceAfter(prefix, "_", 0);
    SplitCons(prefix, "_", digits);
    ShowIntChars(id, '_');
    FreeOfFirstChar(digits, "_");
    assert Split(digits, "_") == [digits];
    ParseShowInt(id);
  }

  /** A token starts with its prefix and "_". */
  lemma TokenStartsWith(prefix: string, id: int)
    ensures StartsWith(Token(prefix, id), prefix + "_")
  {
    assert Token(prefix, id)[..|prefix| + 1] == prefix + "_";
  }

  /** Data without any "_" has no second field: int(...split("_")[1]) raises. */
  lemma CallbackIdNeedsSeparator(data: string)
    requires '_' !in data
    ensures CallbackId(data) == None
  {
    FreeOfFirstChar(data, "_");
  }

  // ---------------------------------------------------------------------------
  // Price-change payload

  datatype PriceChange = PriceChange(productId: int, newPrice: int)

  /**
   * prod_id, new_price = map(float, text.split()); prod_id = int(prod_id).
   * None where Python raises: no text at all, not exactly two tokens, or a token that is not a numeral.
   */
  function ParsePriceChange(text: Option<string>): (r: Option<PriceChange>)
    ensures r.Some? ==> text.Some? && |Words(text.value)| == 2
    ensures r.Some? ==> ParseInteger(Words(text.value)[0]) == Some(r.value.productId)
    ensures r.Some? ==> ParseInteger(Words(text.value)[1]) == Some(r.value.newPrice)
    ensures text.Some? && |Words(text.value)| == 2
            && ParseInteger(Words(text.value)[0]).Some? && ParseInteger(Words(text.value)[1]).Some? ==>
              r == Some(PriceChange(ParseInteger(Words(text.value)[0]).value, ParseInteger(Words(text.value)[1]).value))
  {
    if text.None? then None
    else
      var tokens := Words(text.value);
      if |tokens| != 2 then None
      else
        match (ParseInteger(tokens[0]), ParseInteger(tokens[1]))
        case (Some(id), Some(price)) => Some(PriceChange(id, price))
        case _ => None
  }

  /** The prompt's own example format "<id> <price>" is read back exactly; no sign check on the price. */
  lemma PriceChangeRoundTrip(id: int, price: int)
    ensures ParsePriceChange(Some(ShowInt(id) + " " + ShowInt(price))) == Some(PriceChange(id, price))
  {
    ShowIntChars(id, '_');
    ShowIntChars(price, '_');
    WordsOfPair(ShowInt(id), ShowInt(price));
    ParseShowInt(id);
    ParseShowInt(price);
  }

  // ---------------------------------------------------------------------------
  // /addprod Category | Name | Description | Price

  datatype NewProduct = NewProduct(category: string, name: string, description: string, price: int)

  const CommandPrefix: string := "/addprod "
  /** The command word without its trailing space. */
  const CommandName: string := "/addprod"
  const FieldSeparator: string := " | "

  /**
   * parts = text.replace("/addprod ", "").strip().split(" | "); the first three fields and float(parts[3]).
   * None where Python raises: fewer than four fields, or a fourth field that is not a numeral.
   * Fields after the fourth are ignored.
   */
  function ParseNewProduct(text: string): Option<NewProduct> {
    var parts := Split(Strip(ReplaceAll(text, CommandPrefix, "")), FieldSeparator);
    if |parts| < 4 then None
    else
      match ParseInteger(parts[3])
      case None => None
      case Some(price) => Some(NewProduct(parts[0], parts[1], parts[2], price))
  }

  /**
   * A field that the command format can carry unchanged: no '|', and no "/addprod" that
   * replace("/addprod ", "") could remove.
   */
  predicate PlainField(s: string) {
    '|' !in s && Free(s, CommandName)
  }

  /** The shop's own seeded description, which holds a '/', is a field the command carries unchanged. */
  lemma SeededDescriptionIsPlain()
    ensures PlainField("8 ГБ / 256 ГБ, серебристый")
  {
    var s := "8 ГБ / 256 ГБ, серебристый";
    forall j | 0 <= j ensures !OccursAt(s, CommandName, j) {
      if j + |CommandName| <= |s| {
        var window := s[j..j + |CommandName|];
        if j == 5 {
          assert window[1] == s[6] == ' ';
        } else {
          assert window[0] == s[j] != '/';
        }
      }
    }
  }

  /** Trailing fields that the parse ignores: none, or text without "/addprod " that ends in a non-space. */
  predicate TrailingFields(extra: string) {
    extra == [] || (Free(extra, CommandPrefix) && !IsSpace(extra[|extra| - 1]))
  }

  /** The command an admin types for f, as the help text shows it, with optional trailing fields. */
  function AddProductCommand(f: NewProduct, extra: string): string {
    CommandPrefix + f.category + FieldSeparator + f.name + FieldSeparator + f.description
      + FieldSeparator + ShowInt(f.price) + (if extra == [] then [] else FieldSeparator + extra)
  }

  /** Splitting on " | " peels off a leading field free of '|'. */
  lemma SplitField(a: string, b: string)
    requires '|' !in a
    ensures Split(a + FieldSeparator + b, FieldSeparator) == [a] + Split(b, FieldSeparator)
  {
    assert FieldSeparator[1] == '|' && FieldSeparator[..1] == " ";
    FirstOccurrenceAfter(a, FieldSeparator, 1);
    SplitCons(a, FieldSeparator, b);
  }

  /** replace("/addprod ", "") removes exactly the leading command word from a body without another one. */
  lemma DropCommandPrefix(body: string)
    requires Free(body, CommandPrefix)
    ensures ReplaceAll(CommandPrefix + body, CommandPrefix, "") == body
  {
    var s := CommandPrefix + body;
    assert s[..|CommandPrefix|] == CommandPrefix;
    assert Find(s, CommandPrefix) == Some(0);
    assert s[|CommandPrefix|..] == body;
  }

  /** split(" | ") yields three leading fields free of '|', then the split of what follows. */
  lemma ThreeFields(c: string, n: string, d: string, last: string)
    requires '|' !in c && '|' !in n && '|' !in d
    ensures Split(c + FieldSeparator + (n + FieldSeparator + (d + FieldSeparator + last)), FieldSeparator)
         == [c, n, d] + Split(last, FieldSeparator)
  {
    SplitField(c, n + FieldSeparator + (d + FieldSeparator + last));
    SplitField(n, d + FieldSeparator + last);
    SplitField(d, last);
  }

  /** The price field, with or without trailing fields, splits off as the numeral first. */
  lemma PriceField(price: int, extra: string)
    ensures Split(ShowInt(price) + (if extra == [] then [] else FieldSeparator + extra), FieldSeparator)[0]
         == ShowInt(price)
  {
    var digits := ShowInt(price);
    ShowIntChars(price, '|');
    if extra == [] {
      assert digits + [] == digits;
      FreeOfFirstChar(digits, FieldSeparator);
    } else {
      SplitField(digits, extra);
      assert digits + (FieldSeparator + extra) == digits + FieldSeparator + extra;
    }
  }

  /**
   * The command built for f is parsed back to f, for a category that does not start with whitespace
   * and fields that hold neither '|' nor "/addprod"; trailing fields (extra) are ignored.
   */
  lemma NewProductRoundTrip(f: NewProduct, extra: string)
    requires f.category != [] && !IsSpace(f.category[0])
    requires PlainField(f.category) && PlainField(f.name) && PlainField(f.description)
    requires TrailingFields(extra)
    ensures ParseNewProduct(AddProductCommand(f, extra)) == Some(f)
  {
    var last := ShowInt(f.price) + (if extra == [] then [] else FieldSeparator + extra);
    var body := f.category + FieldSeparator + (f.name + FieldSeparator + (f.description + FieldSeparator + last));
    var text := AddProductCommand(f, extra);
    CommandShape(f, extra, last, body);
    StripBody(f, extra, last, body);
    ThreeFields(f.category, f.name, f.description, last);
    PriceField(f.price, extra);
    ParsedFrom(text, f, Split(last, FieldSeparator));
  }

  /** A command whose fields split as f's three text fields followed by f's price numeral reads as f. */
  lemma ParsedFrom(text: string, f: NewProduct, rest: seq<string>)
    requires |rest| >= 1 && rest[0] == ShowInt(f.price)
    requires Split(Strip(ReplaceAll(text, CommandPrefix, "")), FieldSeparator) == [f.category, f.name, f.description] + rest
    ensures ParseNewProduct(text) == Some(f)
  {
    ParseShowInt(f.price);
  }

  lemma CommandShape(f: NewProduct, extra: string, last: string, body: string)
    requires last == ShowInt(f.price) + (if extra == [] then [] else FieldSeparator + extra)
    requires body == f.category + FieldSeparator + (f.name + FieldSeparator + (f.description + FieldSeparator + last))
    ensures AddProductCommand(f, extra) == CommandPrefix + body
  {
  }

  lemma StripBody(f: NewProduct, extra: string, last: string, body: string)
    requires f.category != [] && !IsSpace(f.category[0])
    requires PlainField(f.category) && PlainField(f.name) && PlainField(f.description)
    requires TrailingFields(extra)
    requires last == ShowInt(f.price) + (if extra == [] then [] else FieldSeparator + extra)
    requires body == f.category + FieldSeparator + (f.name + FieldSeparator + (f.description + FieldSeparator + last))
    ensures Strip(ReplaceAll(CommandPrefix + body, CommandPrefix, "")) == body
  {
    LastField(f.price, extra, last);
    BodyShape(f, last, body);
    DropCommandPrefix(body);
    StripNoop(body);
  }

  /** The body after the command word starts with the category, ends with the last field, and holds no "/addprod ". */
  lemma BodyShape(f: NewProduct, last: string, body: string)
    requires f.category != [] && last != []
    requires PlainField(f.category) && PlainField(f.name) && PlainField(f.description) && Free(last, CommandPrefix)
    requires body == f.category + FieldSeparator + (f.name + FieldSeparator + (f.description + FieldSeparator + last))
    ensures body != [] && body[0] == f.category[0] && body[|body| - 1] == last[|last| - 1]
    ensures Free(body, CommandPrefix)
  {
    var inner := f.description + FieldSeparator + last;
    FreeField(f.description, last);
    FreeField(f.name, inner);
    FreeField(f.category, f.name + FieldSeparator + inner);
  }

  /** A field without "/addprod", the separator, and text without "/addprod " hold no "/addprod ". */
  lemma FreeField(x: string, z: string)
    requires Free(x, CommandName) && Free(z, CommandPrefix)
    ensures Free(x + FieldSeparator + z, CommandPrefix)
  {
    FreeAfter(FieldSeparator, z);
    FreeJoin(x, FieldSeparator + z);
    assert x + FieldSeparator + z == x + (FieldSeparator + z);
  }

  lemma LastField(price: int, extra: string, last: string)
    requires TrailingFields(extra)
    requires last == ShowInt(price) + (if extra == [] then [] else FieldSeparator + extra)
    ensures Free(last, CommandPrefix) && !IsSpace(last[|last| - 1])
  {
    var digits := ShowInt(price);
    ShowIntChars(price, '/');
    FreeOfFirstChar(digits, CommandPrefix);
    if extra == [] {
      assert last == digits;
      assert IsDigit(digits[|digits| - 1]);
    } else {
      FreeAfter(FieldSeparator, extra);
      FreeAfter(digits, FieldSeparator + extra);
      assert last[|last| - 1] == extra[|extra| - 1];
    }
  }

  /** Text without '/' in front of text without "/addprod " leaves the whole free of "/addprod ". */
  lemma FreeAfter(p: string, z: string)
    requires '/' !in p && Free(z, CommandPrefix)
    ensures Free(p + z, CommandPrefix)
  {
    var s := p + z;
    forall j | 0 <= j ensures !OccursAt(s, CommandPrefix, j) {
      if j + |CommandPrefix| <= |s| {
        if j < |p| {
          assert s[j..j + |CommandPrefix|][0] == p[j] != '/';
        } else {
          SliceOfRight(p, z, j, |CommandPrefix|);
          assert !OccursAt(z, CommandPrefix, j - |p|);
        }
      }
    }
  }

  /**
   * A field without "/addprod" followed by a space (or nothing) and text without "/addprod " holds no
   * "/addprod ": an occurrence cannot start in the field, since the letters after '/' are no space.
   */
  lemma FreeJoin(x: string, y: string)
    requires Free(x, CommandName) && (y == [] || y[0] == ' ') && Free(y, CommandPrefix)
    ensures Free(x + y, CommandPrefix)
  {
    forall j | 0 <= j ensures !OccursAt(x + y, CommandPrefix, j) {
      NoPrefixAt(x, y, j);
    }
  }

  lemma NoPrefixAt(x: string, y: string, j: nat)
    requires Free(x, CommandName) && (y == [] || y[0] == ' ') && Free(y, CommandPrefix)
    ensures !OccursAt(x + y, CommandPrefix, j)
  {
    var s := x + y;
    var n := |CommandName|;
    if j + |CommandPrefix| <= |s| {
      var window := s[j..j + |CommandPrefix|];
      if j + n <= |x| {
        assert CommandPrefix[..n] == CommandName;
        PrefixOfSlice(s, j, |CommandPrefix|, n);
        SliceOfLeft(x, y, j, n);
        assert !OccursAt(x, CommandName, j);
      } else if j < |x| {
        assert window[|x| - j] == s[|x|] == y[0];
        assert CommandPrefix[|x| - j] != ' ';
      } else {
        SliceOfRight(x, y, j, |CommandPrefix|);
        assert !OccursAt(y, CommandPrefix, j - |x|);
      }
    }
  }

  /**
   * Trailing fields that end in whitespace break the round trip, for every product: with one space as
   * the trailing field, strip() also eats the space after the last '|', so the price field becomes
   * "<price> |" and float() raises.
   */
  lemma TrailingSpaceBreaksRoundTrip(f: NewProduct)
    requires f.category != [] && !IsSpace(f.category[0])
    requires PlainField(f.category) && PlainField(f.name) && PlainField(f.description)
    ensures ParseNewProduct(AddProductCommand(f, " ")) == None
  {
    var price := ShowInt(f.price) + " |";
    var kept := f.category + FieldSeparator + (f.name + FieldSeparator + (f.description + FieldSeparator + price));
    SpacedCommandShape(f, price, kept);
    DropCommandPrefix(kept + "  ");
    StripTrailingSpaces(kept);
    ThreeFields(f.category, f.name, f.description, price);
    BarredPriceIsOneField(f.price);
    BarredPriceIsNotNumeral(f.price);
  }

  /** The command with one space as trailing field is the prefix, the text up to the last '|', two spaces. */
  lemma SpacedCommandShape(f: NewProduct, price: string, kept: string)
    requires f.category != [] && !IsSpace(f.category[0])
    requires PlainField(f.category) && PlainField(f.name) && PlainField(f.description)
    requires price == ShowInt(f.price) + " |"
    requires kept == f.category + FieldSeparator + (f.name + FieldSeparator + (f.description + FieldSeparator + price))
    ensures AddProductCommand(f, " ") == CommandPrefix + (kept + "  ")
    ensures Free(kept + "  ", CommandPrefix)
    ensures kept != [] && !IsSpace(kept[0]) && kept[|kept| - 1] == '|'
  {
    var digits := ShowInt(f.price);
    var last := digits + (FieldSeparator + " ");
    assert last == price + "  ";
    var body := f.category + FieldSeparator + (f.name + FieldSeparator + (f.description + FieldSeparator + last));
    assert body == kept + "  ";
    CommandShape(f, " ", last, body);
    ShowIntChars(f.price, '/');
    FreeOfFirstChar(FieldSeparator + " ", CommandPrefix);
    FreeAfter(digits, FieldSeparator + " ");
    BodyShape(f, last, body);
    assert kept[0] == body[0];
    assert kept[|kept| - 1] == price[|price| - 1];
  }

  /** strip() removes the two trailing spaces and nothing else from text that ends in '|'. */
  lemma StripTrailingSpaces(s: string)
    requires s != [] && !IsSpace(s[0]) && s[|s| - 1] == '|'
    ensures Strip(s + "  ") == s
  {
    var t := s + "  ";
    assert TrimStart(t) == t;
    assert TrimEnd(s) == s;
    assert (s + " ")[..|s|] == s;
    assert TrimEnd(s + " ") == s;
    assert t[..|t| - 1] == s + " ";
  }

  /** A numeral followed by " |" holds no " | ", so split(" | ") leaves it whole. */
  lemma BarredPriceIsOneField(n: int)
    ensures Split(ShowInt(n) + " |", FieldSeparator) == [ShowInt(n) + " |"]
  {
    var digits := ShowInt(n);
    var t := digits + " |";
    ShowIntChars(n, ' ');
    forall j | 0 <= j ensures !OccursAt(t, FieldSeparator, j) {
      if j + |FieldSeparator| <= |t| {
        assert t[j..j + |FieldSeparator|][0] == digits[j] != ' ';
      }
    }
    assert Find(t, FieldSeparator) == None;
  }

  /** A numeral followed by " |" is not a numeral: the space cannot occur in a digit string. */
  lemma BarredPriceIsNotNumeral(n: int)
    ensures ParseInteger(ShowInt(n) + " |") == None
  {
    var digits := ShowInt(n);
    var t := digits + " |";
    ShowIntChars(n, ' ');
    assert !IsSpace(t[0]) && t[|t| - 1] == '|';
    StripNoop(t);
    SpaceBreaksDigitString(t, |digits|);
    if t[0] == '-' || t[0] == '+' {
      assert t[1..][|digits| - 1] == ' ';
      SpaceBreaksDigitString(t[1..], |digits| - 1);
    }
  }
}
