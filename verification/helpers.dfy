/** `src/utils/helpers.py`: `MathHelper`, `ValidationHelper`,
    `DateTimeHelper.get_date_range` and the per-line rule of
    `ConfigHelper._load_env_file`. */
module Helpers {
  import opened Common

  // ---------------------------------------------------------------------------
  // MathHelper
  // ---------------------------------------------------------------------------

  /** `safe_divide`: the quotient, or `default` exactly when the denominator is 0. */
  function SafeDivide(numerator: real, denominator: real, default: real): (r: real)
    ensures denominator == 0.0 ==> r == default
    ensures denominator != 0.0 ==> r * denominator == numerator
  {
    if denominator == 0.0 then default else numerator / denominator
  }

  /** `calculate_percentage_change`: 0 for a zero base, otherwise the change
      relative to `oldValue`, in percent. */
  function PercentageChange(oldValue: real, newValue: real): (r: real)
    ensures oldValue == 0.0 ==> r == 0.0
    ensures oldValue != 0.0 ==> r * oldValue == (newValue - oldValue) * 100.0
  {
    if oldValue == 0.0 then 0.0 else ((newValue - oldValue) / oldValue) * 100.0
  }

  /** Applying a percentage change to the base recovers the new value. */
  lemma PercentageChangeInverse(oldValue: real, newValue: real)
    requires oldValue != 0.0
    ensures oldValue * (1.0 + PercentageChange(oldValue, newValue) / 100.0) == newValue
  {
    var r := PercentageChange(oldValue, newValue);
    assert r * oldValue == (newValue - oldValue) * 100.0;
    calc {
      oldValue * (1.0 + r / 100.0);
      oldValue + (r * oldValue) / 100.0;
      oldValue + ((newValue - oldValue) * 100.0) / 100.0;
      newValue;
    }
  }

  /** `clamp`: `max(min_val, min(value, max_val))`. */
  function Clamp(value: real, minVal: real, maxVal: real): (r: real)
    ensures minVal <= maxVal ==> minVal <= r <= maxVal
    ensures minVal <= value <= maxVal ==> r == value
    ensures minVal <= maxVal && value < minVal ==> r == minVal
    ensures minVal <= maxVal && value > maxVal ==> r == maxVal
    ensures minVal > maxVal ==> r == minVal
  {
    Max(minVal, Min(value, maxVal))
  }

  lemma ClampIdempotent(value: real, minVal: real, maxVal: real)
    ensures Clamp(Clamp(value, minVal, maxVal), minVal, maxVal) == Clamp(value, minVal, maxVal)
  {
  }

  lemma ClampMonotone(a: real, b: real, minVal: real, maxVal: real)
    requires a <= b
    ensures Clamp(a, minVal, maxVal) <= Clamp(b, minVal, maxVal)
  {
  }

  // ---------------------------------------------------------------------------
  // ValidationHelper
  // ---------------------------------------------------------------------------

  /** A symbol is valid when it is non-empty and at least three characters
      long; the first condition is implied by the second. */
  predicate IsValidSymbol(symbol: string): (r: bool)
    ensures r <==> symbol != [] && |symbol| >= 3
  {
    |symbol| >= 3
  }

  /** A price is valid when it is a number above zero; the type check is
      carried by `real`. */
  predicate IsValidPrice(price: real): (r: bool)
    ensures r <==> 0.0 < price
  {
    price > 0.0
  }

  /** A quantity is valid under the same rule as a price. */
  predicate IsValidQuantity(quantity: real): (r: bool)
    ensures r <==> IsValidPrice(quantity)
  {
    quantity > 0.0
  }

  /** `validate_trade_params`: the first failing check, in the order symbol,
      price, quantity, side; `(true, None)` when everything passes. */
  function ValidateTradeParams(symbol: string, price: real, quantity: real, side: string)
    : (r: (bool, Option<string>))
    ensures r.0 <==> |symbol| >= 3 && price > 0.0 && quantity > 0.0 && (side == "BUY" || side == "SELL")
    ensures r.0 <==> r.1.None?
    ensures |symbol| < 3 ==> r.1 == Some("Invalid symbol")
    ensures |symbol| >= 3 && price <= 0.0 ==> r.1 == Some("Invalid price")
    ensures |symbol| >= 3 && price > 0.0 && quantity <= 0.0 ==> r.1 == Some("Invalid quantity")
  {
    if !IsValidSymbol(symbol) then (false, Some("Invalid symbol"))
    else if !IsValidPrice(price) then (false, Some("Invalid price"))
    else if !IsValidQuantity(quantity) then (false, Some("Invalid quantity"))
    else if side != "BUY" && side != "SELL" then (false, Some("Invalid side"))
    else (true, None)
  }

  /** `validate_trade_params` accepts exactly the parameters each validator
      accepts, with a side of `BUY` or `SELL`. */
  lemma ValidateTradeParamsByValidators(symbol: string, price: real, quantity: real, side: string)
    ensures ValidateTradeParams(symbol, price, quantity, side).0 <==>
      IsValidSymbol(symbol) && IsValidPrice(price) && IsValidQuantity(quantity) && (side == "BUY" || side == "SELL")
  {
  }

  // ---------------------------------------------------------------------------
  // DateTimeHelper.get_date_range
  // ---------------------------------------------------------------------------

  const SecondsPerDay: int := 86400

  /** `get_date_range` for instants given in whole seconds: `timedelta.days`
      and Python's floor division by 7 and by 30 (Dafny's division agrees with
      floor division for a positive divisor). */
  function GetDateRange(startSeconds: int, endSeconds: int): (r: (int, int, int))
    ensures r.0 * SecondsPerDay <= endSeconds - startSeconds < (r.0 + 1) * SecondsPerDay
    ensures 7 * r.1 <= r.0 < 7 * r.1 + 7
    ensures 30 * r.2 <= r.0 < 30 * r.2 + 30
  {
    var days := (endSeconds - startSeconds) / SecondsPerDay;
    (days, days / 7, days / 30)
  }

  /** `get_trading_days`: `int(days * 5/7)`, truncating toward zero as Python's
      `int()` does on a float. */
  function GetTradingDays(startSeconds: int, endSeconds: int): (r: int)
    ensures var days := GetDateRange(startSeconds, endSeconds).0;
      (days >= 0 ==> 0 <= 7 * r <= 5 * days < 7 * r + 7)
      && (days < 0 ==> 7 * r - 7 < 5 * days <= 7 * r <= 0)
  {
    var days := GetDateRange(startSeconds, endSeconds).0;
    if days >= 0 then (days * 5) / 7 else -((-days * 5) / 7)
  }

  // ---------------------------------------------------------------------------
  // `.env` line rule of ConfigHelper._load_env_file
  // ---------------------------------------------------------------------------

  /** The characters Python's `str.strip()` removes: those `str.isspace()`
      accepts, namely the ASCII controls 9-13 and 28-31, the space, and the
      Unicode separators U+0085, U+00A0, U+1680, U+2000-U+200A, U+2028,
      U+2029, U+202F, U+205F and U+3000. */
  predicate IsSpace(c: char)
  {
    var n := c as int;
    || n == 0x20 || 0x09 <= n <= 0x0D || 0x1C <= n <= 0x1F
    || n == 0x85 || n == 0xA0 || n == 0x1680 || 0x2000 <= n <= 0x200A
    || n == 0x2028 || n == 0x2029 || n == 0x202F || n == 0x205F || n == 0x3000
  }

  predicate IsQuote(c: char) { c == '"' || c == '\'' }

  /** Where `str.strip(chars)` cuts: `s[lo..hi]` keeps the characters between
      the leading and the trailing run of characters `p` accepts. */
  function StripBounds(s: string, p: char -> bool): (b: (nat, nat))
    ensures b.0 <= b.1 <= |s|
    ensures forall i :: 0 <= i < b.0 ==> p(s[i])
    ensures forall i :: b.1 <= i < |s| ==> p(s[i])
    ensures b.0 < b.1 ==> !p(s[b.0]) && !p(s[b.1 - 1])
    ensures b.0 == b.1 ==> forall i :: 0 <= i < |s| ==> p(s[i])
    decreases |s|
  {
    if |s| == 0 then (0, 0)
    else if p(s[0]) then
      var b := StripBounds(s[1..], p);
      (b.0 + 1, b.1 + 1)
    else if p(s[|s| - 1]) then
      var b := StripBounds(s[..|s| - 1], p);
      (b.0, b.1)
    else (0, |s|)
  }

  /** `str.strip(chars)`: drop every leading and trailing character `p` accepts. */
  function StripWith(s: string, p: char -> bool): (r: string)
    ensures |r| > 0 ==> !p(r[0]) && !p(r[|r| - 1])
    ensures forall c :: c in r ==> c in s
    ensures var b := StripBounds(s, p); r == s[b.0..b.1]
  {
    var b := StripBounds(s, p);
    s[b.0..b.1]
  }

  /** `str.strip()`: the result has no whitespace at either end, and
      stripping it again changes nothing. */
  function Strip(s: string): (r: string)
    ensures |r| > 0 ==> !IsSpace(r[0]) && !IsSpace(r[|r| - 1])
    ensures |r| <= |s| && forall c :: c in r ==> c in s
    ensures StripWith(r, IsSpace) == r
  {
    var r := StripWith(s, IsSpace);
    StripKeeps(r, IsSpace);
    r
  }

  function StripQuotes(s: string): string { StripWith(s, IsQuote) }

  /** A string whose ends are already kept is its own strip. */
  lemma StripKeeps(s: string, p: char -> bool)
    requires |s| > 0 ==> !p(s[0]) && !p(s[|s| - 1])
    ensures StripWith(s, p) == s
  {
  }

  lemma StripIdempotent(s: string, p: char -> bool)
    ensures StripWith(StripWith(s, p), p) == StripWith(s, p)
  {
    StripKeeps(StripWith(s, p), p);
  }

  function IndexOf(s: string, c: char): (r: nat)
    requires c in s
    ensures r < |s| && s[r] == c
    ensures forall i :: 0 <= i < r ==> s[i] != c
  {
    if s[0] == c then 0 else 1 + IndexOf(s[1..], c)
  }

  /** One line of a `.env` file: `None` for blank lines, `#` comments and lines
      without `=`; otherwise the stripped key before the first `=` and the
      stripped, unquoted value after it. */
  function ParseEnvLine(line: string): (r: Option<(string, string)>)
    ensures r.Some? <==> var l := Strip(line); |l| > 0 && l[0] != '#' && '=' in l
    ensures r.Some? ==> '=' !in r.value.0
    ensures r.Some? ==> |r.value.1| > 0 ==> !IsQuote(r.value.1[0]) && !IsQuote(r.value.1[|r.value.1| - 1])
  {
    var l := Strip(line);
    if |l| > 0 && l[0] != '#' && '=' in l then
      var i := IndexOf(l, '=');
      var key := Strip(l[..i]);
      var value := StripQuotes(Strip(l[i + 1..]));
      assert '=' !in l[..i];
      Some((key, value))
    else
      None
  }

  predicate PlainKey(k: string)
  {
    && |k| > 0 && k[0] != '#' && '=' !in k
    && !IsSpace(k[0]) && !IsSpace(k[|k| - 1])
  }

  predicate PlainValue(v: string)
  {
    |v| > 0 ==> !IsSpace(v[0]) && !IsSpace(v[|v| - 1]) && !IsQuote(v[0]) && !IsQuote(v[|v| - 1])
  }

  /** Writing `key=value` and parsing it back gives the same pair. */
  lemma ParseEnvLineRoundTrip(k: string, v: string)
    requires PlainKey(k) && PlainValue(v)
    ensures ParseEnvLine(k + "=" + v) == Some((k, v))
  {
    var line := k + "=" + v;
    KeyValueLine(k, v);
    StripKeeps(k, IsSpace);
    StripKeeps(v, IsSpace);
    StripKeeps(v, IsQuote);
    ParseEnvLineParts(line, |k|);
  }

  /** How `key=value` splits at its first `=`. */
  lemma KeyValueLine(k: string, v: string)
    requires PlainKey(k) && PlainValue(v)
    ensures var line := k + "=" + v;
      && Strip(line) == line && |line| > 0 && line[0] != '#'
      && |k| < |line| && line[|k|] == '=' && IndexOf(line, '=') == |k|
      && line[..|k|] == k && line[|k| + 1..] == v
  {
    var line := k + "=" + v;
    assert line[0] == k[0];
    assert !IsSpace(line[|line| - 1]);
    StripKeeps(line, IsSpace);
    assert line[|k|] == '=';
    forall j | 0 <= j < |k| ensures line[j] != '=' {
      assert line[j] == k[j];
    }
    assert line[..|k|] == k;
    assert line[|k| + 1..] == v;
  }

  /** `ParseEnvLine` on a line that is already stripped, split at its first `=`. */
  lemma ParseEnvLineParts(line: string, i: nat)
    requires Strip(line) == line && |line| > 0 && line[0] != '#'
    requires i < |line| && line[i] == '=' && IndexOf(line, '=') == i
    ensures ParseEnvLine(line) == Some((Strip(line[..i]), StripQuotes(Strip(line[i + 1..]))))
  {
  }

  /** `_load_env_file` over the lines of a file: a dictionary in which a later
      assignment of a key overwrites an earlier one. */
  function LoadEnvLines(lines: seq<string>): (r: seq<(string, string)>)
    ensures DistinctKeys(r)
    ensures forall x :: x in r ==> exists i :: 0 <= i < |lines| && ParseEnvLine(lines[i]) == Some(x)
  {
    if |lines| == 0 then []
    else
      var prior := LoadEnvLines(lines[..|lines| - 1]);
      assert forall i :: 0 <= i < |lines| - 1 ==> lines[..|lines| - 1][i] == lines[i];
      match ParseEnvLine(lines[|lines| - 1])
      case Some(kv) =>
        PutKeepsDistinct(prior, kv.0, kv.1);
        PutMembers(prior, kv.0, kv.1);
        Put(prior, kv.0, kv.1)
      case None => prior
  }

  /** Reading one more line: a key it assigns now maps to its value, and
      every other key keeps its value. */
  lemma LoadEnvStep(lines: seq<string>, line: string, k: string)
    ensures ParseEnvLine(line).Some? && ParseEnvLine(line).value.0 == k ==>
      Lookup(LoadEnvLines(lines + [line]), k) == Some(ParseEnvLine(line).value.1)
    ensures ParseEnvLine(line).None? || ParseEnvLine(line).value.0 != k ==>
      Lookup(LoadEnvLines(lines + [line]), k) == Lookup(LoadEnvLines(lines), k)
  {
    assert (lines + [line])[..|lines|] == lines;
    var prior := LoadEnvLines(lines);
    match ParseEnvLine(line)
    case Some(kv) => PutThenLookup(prior, kv.0, kv.1, k);
    case None =>
  }

  /** The value a key ends up with is the one from the last line assigning it. */
  lemma {:induction false} LoadEnvLastWins(before: seq<string>, line: string, after: seq<string>, k: string, v: string)
    requires ParseEnvLine(line) == Some((k, v))
    requires forall j :: 0 <= j < |after| ==> ParseEnvLine(after[j]).None? || ParseEnvLine(after[j]).value.0 != k
    ensures Lookup(LoadEnvLines(before + [line] + after), k) == Some(v)
    decreases |after|
  {
    if |after| == 0 {
      assert before + [line] + after == before + [line];
      LoadEnvStep(before, line, k);
    } else {
      var shorter := after[..|after| - 1];
      var last := after[|after| - 1];
      var prefix := before + [line] + shorter;
      SplitLast(before + [line], after);
      LoadEnvLastWins(before, line, shorter, k, v);
      LoadEnvStep(prefix, last, k);
    }
  }

  /** Peeling the last element off the tail of a concatenation. */
  lemma SplitLast<T>(front: seq<T>, back: seq<T>)
    requires |back| > 0
    ensures front + back == (front + back[..|back| - 1]) + [back[|back| - 1]]
    ensures forall j :: 0 <= j < |back| - 1 ==> back[..|back| - 1][j] == back[j]
  {
    assert back == back[..|back| - 1] + [back[|back| - 1]];
  }
}
