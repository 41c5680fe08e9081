/**
 * The tracker window's logic: the configuration merged from defaults and the config file, the
 * token list typed into the settings dialog, the price labels keyed by upper-cased token, and the
 * price update guarded by a re-entrancy flag.
 */
module Tracker {
  import opened Runtime
  import opened PyJson
  import OrderedDict
  import Text
  import Fetcher

  /** The configuration used when the file is missing or does not load, in this key order. */
  const DefaultConfig: seq<(string, Json)> := [
    ("tokens", StringList(["ETH", "BTC", "SOL"])),
    ("currency", JStr("USD")),
    ("update_interval", JNum(60.0)),
    ("transparency", JNum(0.95)),
    ("always_on_top", JBool(false)),
    ("font_size", JNum(12.0)),
    ("font_family", JStr("Arial")),
    ("bg_color", JStr("#0f1729")),
    ("text_color", JStr("#ffffff"))]

  /** The text a price label shows until its first update. */
  const Placeholder: string := "..."

  // ---------------------------------------------------------------------------------------------
  // Configuration

  /** What reading config.json gives: no file, a file that fails to open or parse, or a JSON object. */
  datatype ConfigFile = Missing | Unreadable | Loaded(fields: seq<(string, Json)>)

  /** The defaults updated with the file's entries when it loads, else the defaults. */
  function LoadedConfig(file: ConfigFile): seq<(string, Json)>
  {
    match file
    case Loaded(fields) => OrderedDict.UpdateWith(DefaultConfig, fields)
    case _ => DefaultConfig
  }

  /** The defaults hold nine distinct keys. */
  lemma DefaultConfigKeys()
    ensures OrderedDict.UniqueKeys(DefaultConfig)
    ensures OrderedDict.Keys(DefaultConfig) ==
      {"tokens", "currency", "update_interval", "transparency", "always_on_top", "font_size",
       "font_family", "bg_color", "text_color"}
  {
    var d := DefaultConfig;
    assert d[0].0 == "tokens" && d[1].0 == "currency" && d[2].0 == "update_interval";
    assert d[3].0 == "transparency" && d[4].0 == "always_on_top" && d[5].0 == "font_size";
    assert d[6].0 == "font_family" && d[7].0 == "bg_color" && d[8].0 == "text_color";
  }

  /**
   * The loaded configuration holds every default key and every key of the file, once each; a key in
   * the file takes the file's value, any other key keeps its default, and the default keys keep
   * their order at the front. Without a loaded file the configuration is exactly the defaults.
   */
  lemma LoadedConfigMeaning(file: ConfigFile)
    ensures var c := LoadedConfig(file);
      && OrderedDict.UniqueKeys(c)
      && OrderedDict.Keys(c) == OrderedDict.Keys(DefaultConfig) + (if file.Loaded? then OrderedDict.Keys(file.fields) else {})
      && (forall k :: OrderedDict.Lookup(c, k) ==
            if file.Loaded? && k in OrderedDict.Keys(file.fields) then OrderedDict.Lookup(file.fields, k)
            else OrderedDict.Lookup(DefaultConfig, k))
      && |DefaultConfig| <= |c| && (forall i :: 0 <= i < |DefaultConfig| ==> c[i].0 == DefaultConfig[i].0)
    ensures !file.Loaded? ==> LoadedConfig(file) == DefaultConfig
  {
    DefaultConfigKeys();
    if file.Loaded? {
      OrderedDict.UpdateWithEffect(DefaultConfig, file.fields);
    }
  }

  /** The configuration's token list (`config['tokens']`). */
  function TokensOf(config: seq<(string, Json)>): Json
    requires "tokens" in OrderedDict.Keys(config)
  {
    OrderedDict.Lookup(config, "tokens").value
  }

  /** `config.get('currency', 'USD')`. */
  function CurrencyOf(config: seq<(string, Json)>): Json
  {
    OrderedDict.Lookup(config, "currency").GetOr(JStr("USD"))
  }

  // ---------------------------------------------------------------------------------------------
  // Token list typed into the settings dialog

  /** A token as parsing produces it: non-empty, no lower-case letter, no comma, no space at either end. */
  predicate Normalized(t: string)
  {
    && t != []
    && Text.Trimmed(t)
    && ',' !in t
    && forall k :: 0 <= k < |t| ==> !Text.IsLower(t[k])
  }

  /** `[p.strip().upper() for p in pieces if p.strip()]`. */
  function CleanPieces(pieces: seq<string>): (r: seq<string>)
    requires forall k :: 0 <= k < |pieces| ==> ',' !in pieces[k]
    ensures |r| <= |pieces|
    ensures forall k :: 0 <= k < |r| ==> Normalized(r[k])
  {
    if pieces == [] then []
    else
      var t := Text.Strip(pieces[0]);
      var rest := CleanPieces(pieces[1..]);
      if t == [] then rest
      else
        NormalizedPiece(pieces[0]);
        AllNormalizedCons(Text.Upper(t), rest);
        [Text.Upper(t)] + rest
  }

  /** The positions from i on whose flag is false, in increasing order. */
  function Positions(drop: seq<bool>, i: nat): (idx: seq<nat>)
    requires i <= |drop|
    ensures forall k :: 0 <= k < |idx| ==> i <= idx[k] < |drop|
    decreases |drop| - i
  {
    if i == |drop| then [] else (if drop[i] then [] else [i]) + Positions(drop, i + 1)
  }

  /** Positions lists exactly the unflagged positions from i on, each once, in increasing order. */
  lemma {:induction false} PositionsExact(drop: seq<bool>, i: nat)
    requires i <= |drop|
    ensures forall k :: 0 <= k < |Positions(drop, i)| ==> !drop[Positions(drop, i)[k]]
    ensures forall k, l :: 0 <= k < l < |Positions(drop, i)| ==> Positions(drop, i)[k] < Positions(drop, i)[l]
    ensures forall j :: i <= j < |drop| && !drop[j] ==> j in Positions(drop, i)
    decreases |drop| - i
  {
    if i < |drop| {
      PositionsExact(drop, i + 1);
    }
  }

  /** The items from position i on whose flag is false, in order: a list comprehension with a condition. */
  function Select<T>(xs: seq<T>, drop: seq<bool>, i: nat): seq<T>
    requires |xs| == |drop| && i <= |xs|
    decreases |xs| - i
  {
    if i == |xs| then [] else (if drop[i] then [] else [xs[i]]) + Select(xs, drop, i + 1)
  }

  /** The k-th selected item is the item at the k-th unflagged position. */
  lemma {:induction false} SelectAt<T>(xs: seq<T>, drop: seq<bool>, i: nat)
    requires |xs| == |drop| && i <= |xs|
    ensures |Select(xs, drop, i)| == |Positions(drop, i)|
    ensures forall k :: 0 <= k < |Positions(drop, i)| ==> Select(xs, drop, i)[k] == xs[Positions(drop, i)[k]]
    decreases |xs| - i
  {
    if i < |xs| {
      SelectAt(xs, drop, i + 1);
    }
  }

  /** Whether each piece is blank once stripped. */
  function Blanks(pieces: seq<string>): (r: seq<bool>)
    ensures |r| == |pieces| && forall k :: 0 <= k < |pieces| ==> (r[k] <==> Text.Strip(pieces[k]) == [])
  {
    seq(|pieces|, k requires 0 <= k < |pieces| => Text.Strip(pieces[k]) == [])
  }

  /** Each piece stripped and upper-cased. */
  function Cleaned(pieces: seq<string>): (r: seq<string>)
    ensures |r| == |pieces| && forall k :: 0 <= k < |pieces| ==> r[k] == Text.Upper(Text.Strip(pieces[k]))
  {
    seq(|pieces|, k requires 0 <= k < |pieces| => Text.Upper(Text.Strip(pieces[k])))
  }

  /** The list comprehension is a filter on blankness followed by strip and upper. */
  lemma {:induction false} CleanPiecesSelect(pieces: seq<string>, i: nat)
    requires forall k :: 0 <= k < |pieces| ==> ',' !in pieces[k]
    requires i <= |pieces|
    ensures CleanPieces(pieces[i..]) == Select(Cleaned(pieces), Blanks(pieces), i)
    decreases |pieces| - i
  {
    if i < |pieces| {
      CleanPiecesSelect(pieces, i + 1);
      assert pieces[i..][1..] == pieces[i + 1..];
    }
  }

  /** CleanPieces keeps, in order, the stripped and upper-cased non-blank pieces. */
  lemma CleanPiecesContent(pieces: seq<string>)
    requires forall k :: 0 <= k < |pieces| ==> ',' !in pieces[k]
    ensures var idx := Positions(Blanks(pieces), 0);
      && |CleanPieces(pieces)| == |idx|
      && (forall k :: 0 <= k < |idx| ==> Text.Strip(pieces[idx[k]]) != [] && CleanPieces(pieces)[k] == Text.Upper(Text.Strip(pieces[idx[k]])))
      && (forall k, l :: 0 <= k < l < |idx| ==> idx[k] < idx[l])
      && (forall j :: 0 <= j < |pieces| && Text.Strip(pieces[j]) != [] ==> j in idx)
  {
    CleanPiecesSelect(pieces, 0);
    assert pieces[0..] == pieces;
    SelectAt(Cleaned(pieces), Blanks(pieces), 0);
    PositionsExact(Blanks(pieces), 0);
  }

  lemma AllNormalizedCons(u: string, rest: seq<string>)
    requires Normalized(u) && forall k :: 0 <= k < |rest| ==> Normalized(rest[k])
    ensures forall k :: 0 <= k < |[u] + rest| ==> Normalized(([u] + rest)[k])
  {
  }

  /** A piece without a comma that is not blank cleans to a normalized token. */
  lemma NormalizedPiece(p: string)
    requires ',' !in p && Text.Strip(p) != []
    ensures Normalized(Text.Upper(Text.Strip(p)))
  {
    var t := Text.Strip(p);
    StripKeepsNoComma(p);
    NormalizedUpper(t);
  }

  lemma StripKeepsNoComma(p: string)
    requires ',' !in p
    ensures ',' !in Text.Strip(p)
  {
    var t := Text.Strip(p);
    forall k | 0 <= k < |t| ensures t[k] != ',' {
      assert t[k] == p[Text.Leading(p) + k];
    }
  }

  /** Upper-casing a trimmed token without commas normalizes it. */
  lemma NormalizedUpper(t: string)
    requires ',' !in t && t != [] && Text.Trimmed(t)
    ensures Normalized(Text.Upper(t))
  {
    var u := Text.Upper(t);
    forall k | 0 <= k < |u| ensures u[k] != ',' && !Text.IsLower(u[k]) {
      assert u[k] == Text.UpperChar(t[k]);
    }
    assert u[|u| - 1] == Text.UpperChar(t[|t| - 1]);
  }

  /** The tokens parsed from the dialog's entry: stripped, split at commas, stripped, upper-cased, blanks dropped. */
  function ParseTokens(text: string): (r: seq<string>)
    ensures forall k :: 0 <= k < |r| ==> Normalized(r[k])
  {
    CleanPieces(Text.Split(Text.Strip(text), ','))
  }

  /**
   * The tokens of an entry are its comma-separated pieces (after stripping the entry) that are not
   * blank, in their order, each stripped and upper-cased.
   */
  lemma ParseTokensContent(text: string)
    ensures var pieces := Text.Split(Text.Strip(text), ',');
      var idx := Positions(Blanks(pieces), 0);
      && |ParseTokens(text)| == |idx|
      && (forall k :: 0 <= k < |idx| ==> ParseTokens(text)[k] == Text.Upper(Text.Strip(pieces[idx[k]])) && Normalized(ParseTokens(text)[k]))
      && (forall k, l :: 0 <= k < l < |idx| ==> idx[k] < idx[l])
      && (forall j :: 0 <= j < |pieces| && Text.Strip(pieces[j]) != [] ==> j in idx)
  {
    CleanPiecesContent(Text.Split(Text.Strip(text), ','));
  }

  /** An entry of nothing but spaces parses to no tokens. */
  lemma BlankEntryParsesEmpty(text: string)
    requires Text.Strip(text) == []
    ensures ParseTokens(text) == []
  {
    var pieces := Text.Split(Text.Strip(text), ',');
    assert Text.IndexOf([], ',') == 0;
    assert pieces == [[]];
    assert Text.Strip(pieces[0]) == [];
    assert CleanPieces(pieces[1..]) == [];
  }

  /** Each token after a space. */
  function SpaceEach(ts: seq<string>): (r: seq<string>)
    ensures |r| == |ts| && forall k :: 0 <= k < |ts| ==> r[k] == " " + ts[k]
  {
    seq(|ts|, i requires 0 <= i < |ts| => " " + ts[i])
  }

  /** The pieces of `", ".join(ts)` split at commas: the first token, then each later one after a space. */
  function Spaced(ts: seq<string>): seq<string>
    requires ts != []
  {
    [ts[0]] + SpaceEach(ts[1..])
  }

  lemma {:induction false} JoinSpaced(ts: seq<string>)
    requires ts != []
    ensures Text.Join(ts, ", ") == Text.Join(Spaced(ts), ",")
    decreases |ts|
  {
    if |ts| > 1 {
      var rest := ts[1..];
      JoinSpaced(rest);
      var s := Spaced(rest);
      JoinConsSpace(s);
      assert Spaced(ts)[1..] == [" " + s[0]] + s[1..] by {
        assert SpaceEach(rest)[1..] == SpaceEach(rest[1..]);
      }
      calc {
        Text.Join(ts, ", ");
        ts[0] + ", " + Text.Join(rest, ", ");
        ts[0] + ", " + Text.Join(s, ",");
        ts[0] + "," + Text.Join([" " + s[0]] + s[1..], ",");
        Text.Join(Spaced(ts), ",");
      }
    }
  }

  /** Putting a space before the first piece puts it before the joined string. */
  lemma JoinConsSpace(s: seq<string>)
    requires s != []
    ensures Text.Join([" " + s[0]] + s[1..], ",") == " " + Text.Join(s, ",")
  {
    var t := [" " + s[0]] + s[1..];
    if |s| > 1 {
      assert t[1..] == s[1..];
    }
  }

  /** The joined token list starts with the first token's first character and ends with the last token's last. */
  lemma {:induction false} JoinEnds(ts: seq<string>)
    requires ts != [] && forall k :: 0 <= k < |ts| ==> ts[k] != []
    ensures var j := Text.Join(ts, ", "); j != [] && j[0] == ts[0][0] && j[|j| - 1] == ts[|ts| - 1][|ts[|ts| - 1]| - 1]
    decreases |ts|
  {
    if |ts| > 1 {
      JoinEnds(ts[1..]);
    }
  }

  /** Cleaning the spaced pieces of normalized tokens gives the tokens back. */
  lemma CleanSpaced(ts: seq<string>)
    requires ts != [] && forall k :: 0 <= k < |ts| ==> Normalized(ts[k])
    ensures forall k :: 0 <= k < |Spaced(ts)| ==> ',' !in Spaced(ts)[k]
    ensures CleanPieces(Spaced(ts)) == ts
  {
    var rest := SpaceEach(ts[1..]);
    assert Spaced(ts) == [ts[0]] + rest;
    assert ',' !in ts[0];
    SpaceEachNoComma(ts[1..]);
    CleanCons(ts[0], rest);
    Text.StripTrimmed(ts[0]);
    UpperOfNormalized(ts[0]);
    CleanTail(ts[1..]);
    assert ts == [ts[0]] + ts[1..];
  }

  lemma SpaceEachNoComma(ts: seq<string>)
    requires forall k :: 0 <= k < |ts| ==> Normalized(ts[k])
    ensures forall k :: 0 <= k < |ts| ==> ',' !in SpaceEach(ts)[k]
  {
    forall k | 0 <= k < |ts| ensures ',' !in SpaceEach(ts)[k] {
      assert ',' !in ts[k];
      assert SpaceEach(ts)[k] == " " + ts[k];
    }
  }

  /** Cleaning a piece followed by more pieces: the piece's token, if any, then the rest's. */
  lemma CleanCons(p: string, rest: seq<string>)
    requires ',' !in p && forall k :: 0 <= k < |rest| ==> ',' !in rest[k]
    ensures forall k :: 0 <= k < |[p] + rest| ==> ',' !in ([p] + rest)[k]
    ensures CleanPieces([p] + rest) == (if Text.Strip(p) == [] then [] else [Text.Upper(Text.Strip(p))]) + CleanPieces(rest)
  {
    assert ([p] + rest)[1..] == rest;
  }

  /** Cleaning the pieces after a space gives the tokens themselves. */
  lemma {:induction false} CleanTail(ts: seq<string>)
    requires forall k :: 0 <= k < |ts| ==> Normalized(ts[k])
    ensures forall k :: 0 <= k < |ts| ==> ',' !in SpaceEach(ts)[k]
    ensures CleanPieces(SpaceEach(ts)) == ts
    decreases |ts|
  {
    SpaceEachNoComma(ts);
    if ts != [] {
      var rest := SpaceEach(ts[1..]);
      SpaceEachNoComma(ts[1..]);
      assert SpaceEach(ts) == [" " + ts[0]] + rest;
      CleanSpacedHead(ts[0], rest);
      CleanTail(ts[1..]);
      assert ts == [ts[0]] + ts[1..];
    }
  }

  /** A normalized token after a space, followed by more pieces, cleans to the token and the rest's tokens. */
  lemma CleanSpacedHead(t: string, rest: seq<string>)
    requires Normalized(t) && forall k :: 0 <= k < |rest| ==> ',' !in rest[k]
    ensures forall k :: 0 <= k < |[" " + t] + rest| ==> ',' !in ([" " + t] + rest)[k]
    ensures CleanPieces([" " + t] + rest) == [t] + CleanPieces(rest)
  {
    assert ',' !in " " + t;
    CleanCons(" " + t, rest);
    Text.StripSpaced(t);
    UpperOfNormalized(t);
  }

  lemma UpperOfNormalized(t: string)
    requires Normalized(t)
    ensures Text.Upper(t) == t
  {
  }

  /**
   * Parsing undoes the dialog's pre-fill: the entry `", ".join(tokens)` of a non-empty list of
   * normalized tokens parses back to that list.
   */
  lemma ParseJoinedTokens(ts: seq<string>)
    requires ts != [] && forall k :: 0 <= k < |ts| ==> Normalized(ts[k])
    ensures ParseTokens(Text.Join(ts, ", ")) == ts
  {
    JoinedTrimmed(ts);
    JoinedSplit(ts);
    CleanSpaced(ts);
  }

  /** The joined list has no space at either end. */
  lemma JoinedTrimmed(ts: seq<string>)
    requires ts != [] && forall k :: 0 <= k < |ts| ==> Normalized(ts[k])
    ensures Text.Strip(Text.Join(ts, ", ")) == Text.Join(ts, ", ")
  {
    var j := Text.Join(ts, ", ");
    var first, last := ts[0], ts[|ts| - 1];
    assert forall k :: 0 <= k < |ts| ==> ts[k] != [] by {
      forall k | 0 <= k < |ts| ensures ts[k] != [] {
        assert Normalized(ts[k]);
      }
    }
    JoinEnds(ts);
    assert Normalized(first) && Normalized(last);
    assert !Text.IsSpace(j[0]) && !Text.IsSpace(j[|j| - 1]);
    Text.StripTrimmed(j);
  }

  /** Splitting the joined list at commas gives the spaced pieces. */
  lemma JoinedSplit(ts: seq<string>)
    requires ts != [] && forall k :: 0 <= k < |ts| ==> Normalized(ts[k])
    ensures Text.Split(Text.Join(ts, ", "), ',') == Spaced(ts)
  {
    JoinSpaced(ts);
    CleanSpaced(ts);
    Text.SplitJoin(Spaced(ts), ',');
  }

  /** Whether applying the entry replaces the token list: it parses to a non-empty list that differs from the current one. */
  predicate TokensChange(current: Json, entry: string)
  {
    var ts := ParseTokens(entry);
    Text.Strip(entry) != [] && ts != [] && StringList(ts) != current
  }

  /** The guard: a change always stores a non-empty list, and applying the same entry again changes nothing. */
  lemma TokensChangeGuard(current: Json, entry: string)
    ensures TokensChange(current, entry) <==> ParseTokens(entry) != [] && StringList(ParseTokens(entry)) != current
    ensures !TokensChange(StringList(ParseTokens(entry)), entry)
  {
    if Text.Strip(entry) == [] {
      BlankEntryParsesEmpty(entry);
    }
  }

  /** Confirming the dialog's pre-filled entry (the tokens joined with ", ") changes nothing. */
  lemma PrefillUnchanged(ts: seq<string>)
    requires ts != [] && forall k :: 0 <= k < |ts| ==> Normalized(ts[k])
    ensures !TokensChange(StringList(ts), Text.Join(ts, ", "))
  {
    ParseJoinedTokens(ts);
  }

  // ---------------------------------------------------------------------------------------------
  // Rows and labels

  /** Whether every item is a string (`token.upper()` raises on anything else). */
  predicate AllStrings(items: seq<Json>)
  {
    forall k :: 0 <= k < |items| ==> items[k].JStr?
  }

  /** The strings before the first item that is not one. */
  function StringPrefix(items: seq<Json>): (r: seq<string>)
    ensures |r| <= |items| && forall k :: 0 <= k < |r| ==> items[k] == JStr(r[k])
    ensures |r| < |items| ==> !items[|r|].JStr?
    ensures |r| == |items| <==> AllStrings(items)
  {
    if items == [] || !items[0].JStr? then [] else [items[0].s] + StringPrefix(items[1..])
  }

  /** The keys of the rows created for the tokens: each token upper-cased. */
  function RowKeys(tokens: seq<string>): set<string>
  {
    set k | 0 <= k < |tokens| :: Text.Upper(tokens[k])
  }

  /** The price labels after creating a row per token: keyed by the upper-cased token, showing the placeholder. */
  function RowLabels(tokens: seq<string>): map<string, string>
  {
    map t | t in RowKeys(tokens) :: Placeholder
  }

  /** Creating one more row adds the upper-cased token's label. */
  lemma RowLabelsSnoc(tokens: seq<string>, i: nat)
    requires i < |tokens|
    ensures RowLabels(tokens[..i + 1]) == RowLabels(tokens[..i])[Text.Upper(tokens[i]) := Placeholder]
  {
    var a := tokens[..i + 1];
    var b := tokens[..i];
    assert RowKeys(a) == RowKeys(b) + {Text.Upper(tokens[i])} by {
      forall x | x in RowKeys(a) ensures x in RowKeys(b) + {Text.Upper(tokens[i])} {
        var k :| 0 <= k < i + 1 && x == Text.Upper(a[k]);
        if k < i {
          assert a[k] == b[k];
        }
      }
      forall x | x in RowKeys(b) ensures x in RowKeys(a) {
        var k :| 0 <= k < i && x == Text.Upper(b[k]);
        assert a[k] == b[k];
      }
      assert a[i] == tokens[i];
    }
  }

  /** Whether a token has a lower-case letter. */
  predicate HasLower(t: string)
  {
    exists c :: 0 <= c < |t| && Text.IsLower(t[c])
  }

  /** A token with a lower-case letter never has a label, whatever the token list. */
  lemma LowercaseTokenHasNoLabel(tokens: seq<string>, t: string, k: nat)
    requires k < |t| && Text.IsLower(t[k])
    ensures t !in RowLabels(tokens)
  {
  }

  // ---------------------------------------------------------------------------------------------
  // Label text

  /** update_prices' tiers: grouped without decimals from 1000, then 2 from 1, 4 from 0.01, else 6. */
  function LabelPrecision(price: real): (r: Fetcher.Precision)
    ensures r.grouped <==> price >= 1000.0
    ensures r.decimals == 0 <==> price >= 1000.0
    ensures r.decimals == 2 <==> 1.0 <= price < 1000.0
    ensures r.decimals == 4 <==> 0.01 <= price < 1.0
    ensures r.decimals == 6 <==> price < 0.01
  {
    if price >= 1000.0 then Fetcher.Precision(true, 0)
    else if price >= 1.0 then Fetcher.Precision(false, 2)
    else if price >= 0.01 then Fetcher.Precision(false, 4)
    else Fetcher.Precision(false, 6)
  }

  /**
   * The label uses the same thresholds as format_price: the same grouping everywhere, and the same
   * number of decimals exactly between 0.01 and 1000.
   */
  lemma LabelTiersMatchFormatTiers(price: real)
    ensures LabelPrecision(price).grouped == Fetcher.FormatPrecision(price).grouped
    ensures LabelPrecision(price).decimals == Fetcher.FormatPrecision(price).decimals <==> 0.01 <= price < 1000.0
  {
  }

  /** The label text: `$` before the amount for USD, else the amount, a space and the currency code. */
  function LabelText(currency: string, amount: string): string
  {
    if currency == "USD" then "$" + amount else amount + " " + currency
  }

  /** Reads the amount back out of a label text for the given currency. */
  function LabelAmount(currency: string, text: string): Option<string>
  {
    if currency == "USD" then
      if |text| >= 1 && text[0] == '$' then Some(text[1..]) else None
    else
      var n := |currency| + 1;
      if |text| >= n && text[|text| - n..] == " " + currency then Some(text[..|text| - n]) else None
  }

  /** The amount can always be read back from the label text, so different amounts give different labels. */
  lemma LabelTextRoundTrip(currency: string, amount: string)
    ensures LabelAmount(currency, LabelText(currency, amount)) == Some(amount)
  {
    var text := LabelText(currency, amount);
    if currency == "USD" {
      assert text[1..] == amount;
    } else {
      var n := |currency| + 1;
      assert text[|text| - n..] == " " + currency;
      assert text[..|text| - n] == amount;
    }
  }

  /** The currency as a string; other values are refused (see the README). */
  function CurrencyName(currency: Json): Result<string>
  {
    if currency.JStr? then Ok(currency.s) else Raise(TypeError)
  }

  /**
   * One label's text: the USD price converted to the configured currency, compared against the
   * tiers and rendered; `render` stands for Python's float formatting.
   */
  function LabelFor(price: Json, currency: Json, rates: map<string, Json>, render: (real, Fetcher.Precision) -> string): Result<string>
  {
    var name :- CurrencyName(currency);
    var converted :- Fetcher.ConvertPrice(rates, price, name);
    match Number(converted)
    case None => Raise(TypeError)
    case Some(p) => Ok(LabelText(name, render(p, LabelPrecision(p))))
  }

  /**
   * A price of None always raises; a numeric price in USD is shown after `$` unchanged, and in
   * another currency of the table it is shown scaled by the rate and followed by the code; in a
   * currency outside the table it is shown unscaled, followed by the code.
   */
  lemma LabelForMeaning(price: Json, currency: string, rates: map<string, Json>, render: (real, Fetcher.Precision) -> string)
    requires Fetcher.RatesValid(rates)
    ensures LabelFor(JNull, JStr(currency), rates, render).Raise?
    ensures Number(price).Some? ==>
      var p := Number(price).value;
      LabelFor(price, JStr("USD"), rates, render) == Ok("$" + render(p, LabelPrecision(p)))
    ensures currency in Fetcher.Currencies && currency != "USD" && Number(price).Some? && Number(rates[currency]).Some? ==>
      var p := Number(price).value * Number(rates[currency]).value;
      LabelFor(price, JStr(currency), rates, render) == Ok(render(p, LabelPrecision(p)) + " " + currency)
    ensures currency !in Fetcher.Currencies && Number(price).Some? ==>
      var p := Number(price).value;
      LabelFor(price, JStr(currency), rates, render) == Ok(render(p, LabelPrecision(p)) + " " + currency)
  {
    Fetcher.ConversionMeaning(rates, price, currency);
    Fetcher.ConversionMeaning(rates, JNull, currency);
  }

  /** The labels after the update loop, and whether it ran to the end without raising. */
  datatype Shown = Shown(labels: map<string, string>, completed: bool)

  /**
   * The loop over the batch's (token, price) entries: a token with a label gets its new text, the
   * others are skipped, and the first entry whose text raises ends the loop.
   */
  function ShowPrices(labels: map<string, string>, entries: seq<(string, Json)>, currency: Json,
                      rates: map<string, Json>, render: (real, Fetcher.Precision) -> string): (r: Shown)
    ensures r.labels.Keys == labels.Keys
    ensures forall t :: t in labels && (forall j :: 0 <= j < |entries| ==> entries[j].0 != t) ==> r.labels[t] == labels[t]
    ensures r.completed <==>
      forall j :: 0 <= j < |entries| && entries[j].0 in labels ==> LabelFor(entries[j].1, currency, rates, render).Ok?
    decreases |entries|
  {
    if entries == [] then Shown(labels, true)
    else
      var (token, price) := entries[0];
      if token !in labels then ShowPrices(labels, entries[1..], currency, rates, render)
      else match LabelFor(price, currency, rates, render)
        case Raise(_) => Shown(labels, false)
        case Ok(text) => ShowPrices(labels[token := text], entries[1..], currency, rates, render)
  }

  /** Dropping the first entry keeps the keys distinct. */
  lemma UniqueTail(entries: seq<(string, Json)>)
    requires entries != [] && OrderedDict.UniqueKeys(entries)
    ensures OrderedDict.UniqueKeys(entries[1..])
    ensures forall j :: 1 <= j < |entries| ==> entries[j].0 != entries[0].0
  {
    var rest := entries[1..];
    forall a, b | 0 <= a < b < |rest| ensures rest[a].0 != rest[b].0 {
      assert rest[a] == entries[a + 1] && rest[b] == entries[b + 1];
    }
  }

  /**
   * With distinct tokens, a labelled entry such that neither it nor any labelled entry before it
   * raises gets its own text.
   */
  lemma {:induction false} ShowPricesSets(labels: map<string, string>, entries: seq<(string, Json)>, currency: Json,
                                          rates: map<string, Json>, render: (real, Fetcher.Precision) -> string, j: nat)
    requires OrderedDict.UniqueKeys(entries) && j < |entries| && entries[j].0 in labels
    requires forall i :: 0 <= i <= j && entries[i].0 in labels ==> LabelFor(entries[i].1, currency, rates, render).Ok?
    ensures ShowPrices(labels, entries, currency, rates, render).labels[entries[j].0] ==
            LabelFor(entries[j].1, currency, rates, render).value
    decreases j
  {
    var (token, price) := entries[0];
    var rest := entries[1..];
    UniqueTail(entries);
    if token !in labels {
      ShowPricesSets(labels, rest, currency, rates, render, j - 1);
    } else {
      var text := LabelFor(price, currency, rates, render).value;
      if j > 0 {
        ShowPricesSets(labels[token := text], rest, currency, rates, render, j - 1);
      }
    }
  }

  /** With distinct tokens, after a labelled entry that raises no later label changes. */
  lemma {:induction false} ShowPricesStops(labels: map<string, string>, entries: seq<(string, Json)>, currency: Json,
                                           rates: map<string, Json>, render: (real, Fetcher.Precision) -> string, i: nat, j: nat)
    requires OrderedDict.UniqueKeys(entries) && i < j < |entries|
    requires entries[i].0 in labels && LabelFor(entries[i].1, currency, rates, render).Raise?
    requires entries[j].0 in labels
    ensures ShowPrices(labels, entries, currency, rates, render).labels[entries[j].0] == labels[entries[j].0]
    decreases i
  {
    var (token, price) := entries[0];
    var rest := entries[1..];
    UniqueTail(entries);
    if i > 0 {
      if token !in labels {
        ShowPricesStops(labels, rest, currency, rates, render, i - 1, j - 1);
      } else if LabelFor(price, currency, rates, render).Ok? {
        var text := LabelFor(price, currency, rates, render).value;
        ShowPricesStops(labels[token := text], rest, currency, rates, render, i - 1, j - 1);
      }
    }
  }

  /** A price of None for a labelled token raises whatever the currency. */
  lemma NullPriceRaises(currency: Json, rates: map<string, Json>, render: (real, Fetcher.Precision) -> string)
    ensures LabelFor(JNull, currency, rates, render).Raise?
  {
  }

  /**
   * A labelled token whose price is None stops the label loop: the loop does not complete and no
   * label of a later token changes.
   */
  lemma NullPriceAborts(labels: map<string, string>, entries: seq<(string, Json)>, currency: Json,
                        rates: map<string, Json>, render: (real, Fetcher.Precision) -> string, i: nat)
    requires OrderedDict.UniqueKeys(entries) && i < |entries| && entries[i].0 in labels && entries[i].1 == JNull
    ensures !ShowPrices(labels, entries, currency, rates, render).completed
    ensures forall j :: i < j < |entries| && entries[j].0 in labels ==>
              ShowPrices(labels, entries, currency, rates, render).labels[entries[j].0] == labels[entries[j].0]
  {
    NullPriceRaises(currency, rates, render);
    forall j | i < j < |entries| && entries[j].0 in labels
      ensures ShowPrices(labels, entries, currency, rates, render).labels[entries[j].0] == labels[entries[j].0]
    {
      ShowPricesStops(labels, entries, currency, rates, render, i, j);
    }
  }

  /** A list of strings iterates to its strings, all of which start rows. */
  lemma StringListItems(ts: seq<string>)
    ensures Iterate(StringList(ts)) == Ok(StringList(ts).items)
    ensures AllStrings(StringList(ts).items) && StringPrefix(StringList(ts).items) == ts
  {
    var items := StringList(ts).items;
    var r := StringPrefix(items);
    assert |r| == |ts|;
    forall k | 0 <= k < |ts| ensures r[k] == ts[k] {
      assert items[k] == JStr(r[k]) && items[k] == JStr(ts[k]);
    }
  }

  // ---------------------------------------------------------------------------------------------
  // One price update

  /**
   * What one update does to the labels: a fresh fetcher refreshes its rates, looks up the configured
   * tokens and the label loop runs over the batch; iterating the token list or a token that is not
   * a string raises before any label changes.
   */
  function PriceUpdate(labels: map<string, string>, config: seq<(string, Json)>, rateReply: Fetcher.HttpOutcome,
                       replies: nat -> Fetcher.Replies, render: (real, Fetcher.Precision) -> string): Shown
    requires "tokens" in OrderedDict.Keys(config)
  {
    var rates := Fetcher.RefreshedRates(Fetcher.InitialRates, Fetcher.Open, rateReply);
    match Iterate(TokensOf(config))
    case Raise(_) => Shown(labels, false)
    case Ok(items) =>
      if !AllStrings(items) then Shown(labels, false)
      else ShowPrices(labels, Fetcher.BatchPrices(Fetcher.Open, StringPrefix(items), replies).value, CurrencyOf(config), rates, render)
  }

  /**
   * An update never adds or removes a label, and a label whose key is not among the configured
   * tokens keeps its text.
   */
  lemma PriceUpdateFrame(labels: map<string, string>, tokens: seq<string>, config: seq<(string, Json)>,
                         rateReply: Fetcher.HttpOutcome, replies: nat -> Fetcher.Replies,
                         render: (real, Fetcher.Precision) -> string, t: string)
    requires "tokens" in OrderedDict.Keys(config) && TokensOf(config) == StringList(tokens)
    ensures PriceUpdate(labels, config, rateReply, replies, render).labels.Keys == labels.Keys
    ensures t in labels && (forall k :: 0 <= k < |tokens| ==> tokens[k] != t) ==>
              PriceUpdate(labels, config, rateReply, replies, render).labels[t] == labels[t]
  {
    PriceUpdateOfList(labels, tokens, config, rateReply, replies, render);
    Fetcher.BatchMeaning(Fetcher.Open, tokens, replies);
    var entries := Fetcher.BatchPrices(Fetcher.Open, tokens, replies).value;
    if t in labels && (forall k :: 0 <= k < |tokens| ==> tokens[k] != t) {
      forall j | 0 <= j < |entries| ensures entries[j].0 != t {
        assert entries[j].0 in OrderedDict.Keys(entries);
      }
    }
  }

  /**
   * Labels are keyed by the upper-cased token while the batch is keyed by the token as configured,
   * so when every configured token has a lower-case letter an update completes and changes no label:
   * every row keeps its placeholder.
   */
  lemma LowercaseTokensKeepPlaceholders(tokens: seq<string>, config: seq<(string, Json)>,
                                        rateReply: Fetcher.HttpOutcome, replies: nat -> Fetcher.Replies,
                                        render: (real, Fetcher.Precision) -> string)
    requires "tokens" in OrderedDict.Keys(config) && TokensOf(config) == StringList(tokens)
    requires forall k :: 0 <= k < |tokens| ==> HasLower(tokens[k])
    ensures PriceUpdate(RowLabels(tokens), config, rateReply, replies, render) == Shown(RowLabels(tokens), true)
  {
    var labels := RowLabels(tokens);
    var entries := Fetcher.BatchPrices(Fetcher.Open, tokens, replies).value;
    var rates := Fetcher.RefreshedRates(Fetcher.InitialRates, Fetcher.Open, rateReply);
    var currency := CurrencyOf(config);
    PriceUpdateOfList(labels, tokens, config, rateReply, replies, render);
    UnlabelledBatch(tokens, replies);
    NothingLabelled(labels, entries, currency, rates, render);
    calc {
      PriceUpdate(labels, config, rateReply, replies, render);
      ShowPrices(labels, entries, currency, rates, render);
      Shown(labels, true);
    }
  }

  /** When the token list does not iterate to strings, an update changes no label. */
  lemma PriceUpdateAborts(labels: map<string, string>, config: seq<(string, Json)>, rateReply: Fetcher.HttpOutcome,
                          replies: nat -> Fetcher.Replies, render: (real, Fetcher.Precision) -> string)
    requires "tokens" in OrderedDict.Keys(config)
    requires Iterate(TokensOf(config)).Raise? || !AllStrings(Iterate(TokensOf(config)).value)
    ensures PriceUpdate(labels, config, rateReply, replies, render) == Shown(labels, false)
  {
  }

  /** When the token list iterates to strings, an update is the label loop over their batch. */
  lemma PriceUpdateRuns(labels: map<string, string>, config: seq<(string, Json)>, rateReply: Fetcher.HttpOutcome,
                        replies: nat -> Fetcher.Replies, render: (real, Fetcher.Precision) -> string, items: seq<Json>)
    requires "tokens" in OrderedDict.Keys(config)
    requires Iterate(TokensOf(config)) == Ok(items) && AllStrings(items)
    ensures PriceUpdate(labels, config, rateReply, replies, render) ==
      ShowPrices(labels, Fetcher.BatchPrices(Fetcher.Open, StringPrefix(items), replies).value, CurrencyOf(config),
                 Fetcher.RefreshedRates(Fetcher.InitialRates, Fetcher.Open, rateReply), render)
  {
  }

  /** For a configured list of strings, an update is the label loop over that list's batch. */
  lemma PriceUpdateOfList(labels: map<string, string>, tokens: seq<string>, config: seq<(string, Json)>,
                          rateReply: Fetcher.HttpOutcome, replies: nat -> Fetcher.Replies,
                          render: (real, Fetcher.Precision) -> string)
    requires "tokens" in OrderedDict.Keys(config) && TokensOf(config) == StringList(tokens)
    ensures PriceUpdate(labels, config, rateReply, replies, render) ==
      ShowPrices(labels, Fetcher.BatchPrices(Fetcher.Open, tokens, replies).value, CurrencyOf(config),
                 Fetcher.RefreshedRates(Fetcher.InitialRates, Fetcher.Open, rateReply), render)
  {
    StringListItems(tokens);
  }

  /** No entry of the batch of lower-case tokens has a row label. */
  lemma UnlabelledBatch(tokens: seq<string>, replies: nat -> Fetcher.Replies)
    requires forall k :: 0 <= k < |tokens| ==> HasLower(tokens[k])
    ensures var entries := Fetcher.BatchPrices(Fetcher.Open, tokens, replies).value;
      forall j :: 0 <= j < |entries| ==> entries[j].0 !in RowLabels(tokens)
  {
    Fetcher.BatchMeaning(Fetcher.Open, tokens, replies);
    var entries := Fetcher.BatchPrices(Fetcher.Open, tokens, replies).value;
    forall j | 0 <= j < |entries| ensures entries[j].0 !in RowLabels(tokens) {
      assert entries[j].0 in OrderedDict.Keys(entries);
      var k :| 0 <= k < |tokens| && tokens[k] == entries[j].0;
      assert HasLower(tokens[k]);
      var c :| 0 <= c < |tokens[k]| && Text.IsLower(tokens[k][c]);
      LowercaseTokenHasNoLabel(tokens, tokens[k], c);
    }
  }

  /** A loop over entries none of which has a label completes and changes nothing. */
  lemma NothingLabelled(labels: map<string, string>, entries: seq<(string, Json)>, currency: Json,
                        rates: map<string, Json>, render: (real, Fetcher.Precision) -> string)
    requires forall j :: 0 <= j < |entries| ==> entries[j].0 !in labels
    ensures ShowPrices(labels, entries, currency, rates, render) == Shown(labels, true)
  {
    var r := ShowPrices(labels, entries, currency, rates, render);
    forall t | t in labels ensures r.labels[t] == labels[t] {
      assert forall j :: 0 <= j < |entries| ==> entries[j].0 != t;
    }
  }

  /** The row labels for the configured tokens, up to the first token that is not a string. */
  function ConfiguredRows(config: seq<(string, Json)>): map<string, string>
    requires "tokens" in OrderedDict.Keys(config)
  {
    match Iterate(TokensOf(config))
    case Ok(items) => RowLabels(StringPrefix(items))
    case Raise(_) => RowLabels([])
  }

  /** Storing a token list keeps the configuration a dict with every default key, and the list reads back. */
  lemma StoreTokens(config: seq<(string, Json)>, tokens: seq<string>)
    requires OrderedDict.UniqueKeys(config) && OrderedDict.Keys(DefaultConfig) <= OrderedDict.Keys(config)
    ensures var c := OrderedDict.Put(config, "tokens", StringList(tokens));
      && OrderedDict.UniqueKeys(c) && OrderedDict.Keys(DefaultConfig) <= OrderedDict.Keys(c)
      && "tokens" in OrderedDict.Keys(c) && TokensOf(c) == StringList(tokens)
      && ConfiguredRows(c) == RowLabels(tokens)
  {
    OrderedDict.PutEffect(config, "tokens", StringList(tokens));
    StringListItems(tokens);
  }

  /**
   * The fetcher's part of update_prices: a fresh fetcher in its context refreshes its rates and
   * looks up the tokens.
   */
  method FetchPrices(rateReply: Fetcher.HttpOutcome, symbols: seq<string>, replies: nat -> Fetcher.Replies)
    returns (rates: map<string, Json>, prices: seq<(string, Json)>)
    ensures rates == Fetcher.RefreshedRates(Fetcher.InitialRates, Fetcher.Open, rateReply)
    ensures Fetcher.BatchPrices(Fetcher.Open, symbols, replies) == Ok(prices)
  {
    var fetcher := new Fetcher.PriceFetcher();
    fetcher.Enter();
    fetcher.UpdateExchangeRates(rateReply);
    var batch := fetcher.GetMultiplePrices(symbols, replies);
    rates, prices := fetcher.rates, batch.value;
    fetcher.Exit();
  }

  // ---------------------------------------------------------------------------------------------
  // The window

  class CryptoTrackerApp {
    var config: seq<(string, Json)>
    var isUpdating: bool
    var labels: map<string, string>
    /** Whether __init__ returned: create_widgets and the ', '.join of the tokens raise on a token that is not a string. */
    var started: bool

    /** The configuration is a dict holding every default key, the token list among them. */
    ghost predicate Valid()
      reads this`config
    {
      && OrderedDict.UniqueKeys(config)
      && OrderedDict.Keys(DefaultConfig) <= OrderedDict.Keys(config)
      && "tokens" in OrderedDict.Keys(config)
    }

    /**
     * Loads the configuration and creates a row per configured token (create_widgets); no update is
     * running. The window comes up only when the token list iterates into strings.
     */
    constructor (file: ConfigFile)
      ensures Valid() && config == LoadedConfig(file)
      ensures !isUpdating && labels == ConfiguredRows(config)
      ensures started <==> Iterate(TokensOf(config)).Ok? && AllStrings(Iterate(TokensOf(config)).value)
    {
      isUpdating := false;
      labels := map[];
      new;
      LoadConfig(file);
      started := RebuildRows();
    }

    /** load_config: the defaults, updated with the file's entries when the file loads. */
    method LoadConfig(file: ConfigFile)
      modifies this`config
      ensures Valid() && config == LoadedConfig(file)
    {
      LoadedConfigMeaning(file);
      DefaultConfigKeys();
      config := LoadedConfig(file);
    }

    /**
     * rebuild_ui's rows: drops every label, then creates one per configured token, keyed by the
     * upper-cased token, until a token that is not a string raises.
     */
    method RebuildRows() returns (ok: bool)
      requires Valid()
      modifies this`labels
      ensures ok <==> Iterate(TokensOf(config)).Ok? && AllStrings(Iterate(TokensOf(config)).value)
      ensures labels == ConfiguredRows(config)
    {
      labels := map[];
      var iterated := Iterate(TokensOf(config));
      if iterated.Raise? {
        return false;
      }
      var items := iterated.value;
      ghost var tokens := StringPrefix(items);
      var i := 0;
      while i < |items|
        invariant 0 <= i <= |tokens|
        invariant labels == RowLabels(tokens[..i])
      {
        if !items[i].JStr? {
          assert tokens[..i] == tokens;
          return false;
        }
        assert i < |tokens|;
        RowLabelsSnoc(tokens, i);
        labels := labels[Text.Upper(items[i].s) := Placeholder];
        i := i + 1;
      }
      assert tokens[..i] == tokens;
      ok := true;
    }

    /**
     * apply_tokens: when the entry parses to a non-empty token list different from the configured
     * one, stores it and rebuilds the rows; otherwise nothing changes.
     */
    method ApplyTokens(entry: string) returns (changed: bool)
      requires Valid()
      modifies this`config, this`labels
      ensures Valid()
      ensures changed == TokensChange(TokensOf(old(config)), entry)
      ensures config == if changed then OrderedDict.Put(old(config), "tokens", StringList(ParseTokens(entry))) else old(config)
      ensures labels == if changed then RowLabels(ParseTokens(entry)) else old(labels)
    {
      var text := Text.Strip(entry);
      if text == [] {
        return false;
      }
      var tokens := CleanPieces(Text.Split(text, ','));
      assert tokens == ParseTokens(entry);
      if tokens == [] || StringList(tokens) == TokensOf(config) {
        return false;
      }
      assert TokensChange(TokensOf(config), entry);
      SetTokens(tokens);
      changed := true;
    }

    /** Stores a new token list in the configuration and rebuilds the rows for it (rebuild_ui). */
    method SetTokens(tokens: seq<string>)
      requires Valid()
      modifies this`config, this`labels
      ensures Valid()
      ensures config == OrderedDict.Put(old(config), "tokens", StringList(tokens))
      ensures TokensOf(config) == StringList(tokens)
      ensures labels == RowLabels(tokens)
    {
      StoreTokens(config, tokens);
      config := OrderedDict.Put(config, "tokens", StringList(tokens));
      var _ := RebuildRows();
    }

    /** The check at the head of update_prices: an update already running makes this one return. */
    method BeginUpdate() returns (proceed: bool)
      modifies this`isUpdating
      ensures proceed == !old(isUpdating) && isUpdating
    {
      if isUpdating {
        return false;
      }
      isUpdating := true;
      proceed := true;
    }

    /**
     * The body of update_prices: a fresh fetcher in its context refreshes the rates, fetches the
     * batch and the label loop runs; whatever happens the flag is cleared at the end.
     */
    method FinishUpdate(rateReply: Fetcher.HttpOutcome, replies: nat -> Fetcher.Replies,
                        render: (real, Fetcher.Precision) -> string)
      requires Valid()
      modifies this`labels, this`isUpdating
      ensures !isUpdating
      ensures labels == PriceUpdate(old(labels), config, rateReply, replies, render).labels
    {
      var iterated := Iterate(TokensOf(config));
      if iterated.Raise? || !AllStrings(iterated.value) {
        // The lookups raise before any label is touched; the rate refresh before them has no lasting effect.
        PriceUpdateAborts(labels, config, rateReply, replies, render);
      } else {
        var rates, batch := FetchPrices(rateReply, StringPrefix(iterated.value), replies);
        PriceUpdateRuns(labels, config, rateReply, replies, render, iterated.value);
        ShowLabels(batch, CurrencyOf(config), rates, render);
      }
      isUpdating := false;
    }

    /** The label loop of update_prices: stops at the first entry whose text raises. */
    method ShowLabels(entries: seq<(string, Json)>, currency: Json, rates: map<string, Json>,
                      render: (real, Fetcher.Precision) -> string)
      modifies this`labels
      ensures labels == ShowPrices(old(labels), entries, currency, rates, render).labels
    {
      ghost var goal := ShowPrices(labels, entries, currency, rates, render);
      var i := 0;
      var failed := false;
      while i < |entries| && !failed
        invariant 0 <= i <= |entries|
        invariant failed ==> goal == Shown(labels, false)
        invariant !failed ==> goal == ShowPrices(labels, entries[i..], currency, rates, render)
      {
        assert entries[i..][1..] == entries[i + 1..];
        var (token, price) := entries[i];
        if token in labels {
          var text := LabelFor(price, currency, rates, render);
          if text.Raise? {
            failed := true;
          } else {
            labels := labels[token := text.value];
          }
        }
        i := i + 1;
      }
    }

    /**
     * update_prices: returns at once while another update runs; otherwise sets the flag, updates the
     * labels and clears the flag.
     */
    method UpdatePrices(rateReply: Fetcher.HttpOutcome, replies: nat -> Fetcher.Replies,
                        render: (real, Fetcher.Precision) -> string) returns (ran: bool)
      requires Valid()
      modifies this`labels, this`isUpdating
      ensures ran == !old(isUpdating)
      ensures ran ==> !isUpdating && labels == PriceUpdate(old(labels), config, rateReply, replies, render).labels
      ensures !ran ==> isUpdating && labels == old(labels)
    {
      ran := BeginUpdate();
      if ran {
        FinishUpdate(rateReply, replies, render);
      }
    }
  }
}
