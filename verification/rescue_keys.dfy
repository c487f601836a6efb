/**
 * set_rescue_keys (src/main.c:92-115): the -k argument (or the default combo) is cut into
 * tokens by strtok with the delimiters ',' and ' ', and each token is looked up in the key
 * table. An unknown name or an eleventh key makes the program panic; the model returns
 * those two failures as values instead of exiting.
 */
module RescueKeys {
  import Keycodes

  /** MAX_RESCUE_KEYS: the size of the rescue_keys array. */
  const MaxRescueKeys: nat := 10

  /** The combo used when no -k option is given (rescue_keys_str, src/main.c:38). */
  const DefaultRescueKeys: string := "KEY_LEFTSHIFT,KEY_RIGHTSHIFT,KEY_ESC"

  /** rescue_key_seps: the delimiter set handed to strtok. */
  predicate IsSeparator(c: char) {
    c == ',' || c == ' '
  }

  /** A token as strtok returns it: non-empty and free of delimiters. */
  predicate IsToken(t: string) {
    |t| > 0 && forall i :: 0 <= i < |t| ==> !IsSeparator(t[i])
  }

  /** Length of the run of non-delimiters at the start of `s`. */
  function TokenLength(s: string): (n: nat)
    ensures n <= |s|
    ensures forall i :: 0 <= i < n ==> !IsSeparator(s[i])
    ensures n < |s| ==> IsSeparator(s[n])
  {
    if s == [] || IsSeparator(s[0]) then 0 else 1 + TokenLength(s[1..])
  }

  /** The tokens successive strtok calls return on `s`: the maximal runs of non-delimiters,
      in order. Runs of delimiters, leading and trailing ones included, yield nothing. */
  function Tokens(s: string): (ts: seq<string>)
    ensures forall k :: 0 <= k < |ts| ==> IsToken(ts[k])
    decreases |s|
  {
    if s == [] then []
    else if IsSeparator(s[0]) then Tokens(s[1..])
    else
      var n := TokenLength(s);
      [s[..n]] + Tokens(s[n..])
  }

  /** The token at the start of `a` is not affected by what follows a delimiter after `a`. */
  lemma TokenLengthStopsAtSeparator(a: string, c: char, b: string)
    requires IsSeparator(c)
    ensures TokenLength(a + [c] + b) == TokenLength(a)
  {
    var s := a + [c] + b;
    assert forall i :: 0 <= i < |a| ==> s[i] == a[i];
    assert s[|a|] == c;
  }

  /** A delimiter splits the token stream: strtok never joins text across it, and it
      contributes no token of its own. */
  lemma {:induction false} TokensSplitAtSeparator(a: string, c: char, b: string)
    requires IsSeparator(c)
    ensures Tokens(a + [c] + b) == Tokens(a) + Tokens(b)
    decreases |a|
  {
    var s := a + [c] + b;
    if a == [] {
      assert s[1..] == b;
    } else if IsSeparator(a[0]) {
      assert s[1..] == a[1..] + [c] + b;
      TokensSplitAtSeparator(a[1..], c, b);
    } else {
      var n := TokenLength(s);
      TokenLengthStopsAtSeparator(a, c, b);
      assert s[..n] == a[..n];
      assert s[n..] == a[n..] + [c] + b;
      TokensSplitAtSeparator(a[n..], c, b);
    }
  }

  /** A lone token is returned whole. */
  lemma TokensOfToken(t: string)
    requires IsToken(t)
    ensures Tokens(t) == [t]
  {
    assert TokenLength(t) == |t|;
    assert t[..|t|] == t && t[|t|..] == [];
  }

  /** `ts` written out with `c` between consecutive names, as in a -k argument. */
  function Join(ts: seq<string>, c: char): string
  {
    if |ts| <= 1 then (if ts == [] then [] else ts[0])
    else ts[0] + [c] + Join(ts[1..], c)
  }

  /** Splitting a comma- or blank-separated list of names gives back the names. */
  lemma {:induction false} TokensOfJoin(ts: seq<string>, c: char)
    requires IsSeparator(c)
    requires forall k :: 0 <= k < |ts| ==> IsToken(ts[k])
    ensures Tokens(Join(ts, c)) == ts
  {
    if |ts| == 1 {
      TokensOfToken(ts[0]);
    } else if |ts| > 1 {
      TokensSplitAtSeparator(ts[0], c, Join(ts[1..], c));
      TokensOfToken(ts[0]);
      TokensOfJoin(ts[1..], c);
    }
  }

  /** How set_rescue_keys ends: the codes of a valid combo, or the reason it panics. */
  datatype ParseResult = Parsed(codes: seq<nat>) | InvalidKeyName(name: string) | TooManyRescueKeys

  /** The loop of set_rescue_keys over the tokens of `s`, with the name lookup `lookup`
      (negative for an unknown name): fail on the first unknown name and on the first token
      that finds all MAX_RESCUE_KEYS slots taken. Since the lookup comes first, an unknown
      eleventh name is reported as unknown rather than as one too many. */
  method ParseRescueKeys(s: string, lookup: string -> int) returns (r: ParseResult)
    ensures var ts := Tokens(s);
            r.Parsed? <==> |ts| <= MaxRescueKeys && forall k :: 0 <= k < |ts| ==> lookup(ts[k]) >= 0
    ensures var ts := Tokens(s);
            r.Parsed? ==> |r.codes| == |ts| && forall k :: 0 <= k < |ts| ==> r.codes[k] == lookup(ts[k])
    ensures var ts := Tokens(s);
            r.InvalidKeyName? ==>
              exists k :: 0 <= k < |ts| && k <= MaxRescueKeys && r.name == ts[k] && lookup(ts[k]) < 0
                          && forall m :: 0 <= m < k ==> lookup(ts[m]) >= 0
    ensures var ts := Tokens(s);
            r.TooManyRescueKeys? <==>
              |ts| > MaxRescueKeys && forall k :: 0 <= k <= MaxRescueKeys ==> lookup(ts[k]) >= 0
  {
    var ts := Tokens(s);
    var codes: seq<nat> := [];
    var i := 0;
    while i < |ts|
      invariant 0 <= i <= |ts| && i <= MaxRescueKeys && |codes| == i
      invariant forall k :: 0 <= k < i ==> lookup(ts[k]) >= 0
      invariant forall k :: 0 <= k < i ==> codes[k] == lookup(ts[k])
    {
      var keycode := lookup(ts[i]);
      if keycode < 0 {
        return InvalidKeyName(ts[i]);
      } else if |codes| < MaxRescueKeys {
        codes := codes + [keycode];
      } else {
        return TooManyRescueKeys;
      }
      i := i + 1;
    }
    return Parsed(codes);
  }

  /** set_rescue_keys with the key table's lookup_keycode: the combo is accepted exactly when
      it names at most MAX_RESCUE_KEYS keys, all of them in the table. */
  method SetRescueKeys(s: string) returns (r: ParseResult)
    ensures var ts := Tokens(s);
            r.Parsed? <==> |ts| <= MaxRescueKeys && forall k :: 0 <= k < |ts| ==> Keycodes.IsKeyName(ts[k])
    ensures var ts := Tokens(s);
            r.Parsed? ==> |r.codes| == |ts| && forall k :: 0 <= k < |ts| ==> r.codes[k] == Keycodes.LookupKeycode(ts[k])
    ensures var ts := Tokens(s);
            r.InvalidKeyName? ==>
              exists k :: 0 <= k < |ts| && k <= MaxRescueKeys && r.name == ts[k] && !Keycodes.IsKeyName(ts[k])
                          && forall m :: 0 <= m < k ==> Keycodes.IsKeyName(ts[m])
    ensures var ts := Tokens(s);
            r.TooManyRescueKeys? <==>
              |ts| > MaxRescueKeys && forall k :: 0 <= k <= MaxRescueKeys ==> Keycodes.IsKeyName(ts[k])
  {
    r := ParseRescueKeys(s, Keycodes.LookupKeycode);
  }

  /** The default combo splits into left shift, right shift and escape. */
  lemma DefaultRescueTokens()
    ensures Tokens(DefaultRescueKeys) == ["KEY_LEFTSHIFT", "KEY_RIGHTSHIFT", "KEY_ESC"]
  {
    var names := ["KEY_LEFTSHIFT", "KEY_RIGHTSHIFT", "KEY_ESC"];
    assert DefaultRescueKeys == Join(names, ',');
    TokensOfJoin(names, ',');
  }

  /** ... whose codes are 42, 54 and 1, so the default combo is accepted as [42, 54, 1]. */
  lemma DefaultRescueCodes()
    ensures Keycodes.LookupKeycode("KEY_LEFTSHIFT") == 42
    ensures Keycodes.LookupKeycode("KEY_RIGHTSHIFT") == 54
    ensures Keycodes.LookupKeycode("KEY_ESC") == 1
  {
    assert Keycodes.KeyTable[41] == Keycodes.NameValue("KEY_LEFTSHIFT", 42);
    Keycodes.LookupKeycodeOfRow(41);
    assert Keycodes.KeyTable[53] == Keycodes.NameValue("KEY_RIGHTSHIFT", 54);
    Keycodes.LookupKeycodeOfRow(53);
    assert Keycodes.KeyTable[0] == Keycodes.NameValue("KEY_ESC", 1);
    Keycodes.LookupKeycodeOfRow(0);
  }
}
