/**
 * The key-name table of src/keycodes.c and its two first-match lookups.
 *
 * The codes are the Linux input-event key codes (KEY_ESC = 1, ..., KEY_F24 = 194,
 * KEY_UNKNOWN = 240) that the source takes from linux/input.h; that header is not part of
 * this model, so the numbers are written out here. KEY_HANGUEL is the kernel's alias of
 * KEY_HANGEUL and therefore shares its code, 122.
 */
module Keycodes {

  /** One `struct name_value` row. Every code in the table is a non-negative constant. */
  datatype NameValue = NameValue(name: string, value: nat)

  /** Number of rows of `key_table` before its `{NULL, 0}` sentinel. */
  const TableSize: nat := 140

  /** What lookup_keycode returns for a name that is not in the table. */
  const NotFound: int := -1

  /** What lookup_keyname returns for a code that is not in the table. */
  const UnknownKeyName: string := "KEY_UNKNOWN"

  /** Rows of the two names that share a code: KEY_HANGEUL, then its alias KEY_HANGUEL. */
  const HangeulRow: nat := 120
  const HanguelRow: nat := 121

  /** `key_table` without its sentinel: the scans of both lookups stop at its end. */
  const KeyTable: seq<NameValue> := FirstRows(TableSize)

  /** The first `n` rows of the table, in order. */
  function FirstRows(n: nat): (t: seq<NameValue>)
    requires n <= TableSize
    ensures |t| == n
    ensures forall i :: 0 <= i < n ==> t[i] == Row(i)
  {
    seq(n, i requires 0 <= i < n => Row(i))
  }

  ghost predicate IsKeyName(name: string) {
    exists i :: 0 <= i < |KeyTable| && KeyTable[i].name == name
  }

  ghost predicate IsKeyCode(code: int) {
    exists i :: 0 <= i < |KeyTable| && KeyTable[i].value == code
  }

  // ---------------------------------------------------------------------------------------
  // First-match scans (the `for (p = key_table; p->name != NULL; ++p)` loops)
  // ---------------------------------------------------------------------------------------

  /** Index of the first row at or after `from` whose name is `name`, or |t| if there is none. */
  function FirstNamed(t: seq<NameValue>, name: string, from: nat): (k: nat)
    requires from <= |t|
    ensures from <= k <= |t|
    ensures k < |t| ==> t[k].name == name
    ensures forall j :: from <= j < k ==> t[j].name != name
    decreases |t| - from
  {
    if from == |t| || t[from].name == name then from else FirstNamed(t, name, from + 1)
  }

  /** Index of the first row at or after `from` whose code is `code`, or |t| if there is none. */
  function FirstValued(t: seq<NameValue>, code: int, from: nat): (k: nat)
    requires from <= |t|
    ensures from <= k <= |t|
    ensures k < |t| ==> t[k].value == code
    ensures forall j :: from <= j < k ==> t[j].value != code
    decreases |t| - from
  {
    if from == |t| || t[from].value == code then from else FirstValued(t, code, from + 1)
  }

  /** lookup_keycode: the code of the first row named `name`, or -1. */
  function LookupKeycode(name: string): (r: int)
    ensures r < 0 <==> !IsKeyName(name)
    ensures r < 0 ==> r == NotFound
    ensures r >= 0 ==> exists i :: 0 <= i < |KeyTable| && KeyTable[i] == NameValue(name, r)
                                 && forall j :: 0 <= j < i ==> KeyTable[j].name != name
  {
    var k := FirstNamed(KeyTable, name, 0);
    if k < |KeyTable| then KeyTable[k].value else NotFound
  }

  /** lookup_keyname: the name of the first row whose code is `code`, or "KEY_UNKNOWN". */
  function LookupKeyname(code: int): (r: string)
    ensures !IsKeyCode(code) ==> r == UnknownKeyName
    ensures IsKeyCode(code) ==> exists i :: 0 <= i < |KeyTable| && KeyTable[i] == NameValue(r, code)
                                          && forall j :: 0 <= j < i ==> KeyTable[j].value != code
  {
    var k := FirstValued(KeyTable, code, 0);
    if k < |KeyTable| then KeyTable[k].name else UnknownKeyName
  }


  // ---------------------------------------------------------------------------------------
  // Properties of the concrete table and the round trips they give
  // ---------------------------------------------------------------------------------------

  ghost predicate NamesDistinct(t: seq<NameValue>) {
    forall i, j :: 0 <= i < j < |t| ==> t[i].name != t[j].name
  }

  /** A table whose fingerprints lead back to their rows has no repeated name. */
  lemma CertifiedDistinct(t: seq<NameValue>)
    requires forall i | 0 <= i < |t| :: RowCertified(t, i)
    ensures NamesDistinct(t)
  {
    forall i, j | 0 <= i < j < |t|
      ensures t[i].name != t[j].name
    {
      assert RowCertified(t, i) && RowCertified(t, j);
    }
  }

  /** No two rows of `key_table` carry the same name. */
  lemma KeyTableNamesDistinct()
    ensures NamesDistinct(KeyTable)
  {
    AllRowsCertified();
    CertifiedDistinct(KeyTable);
  }

  /** In a certified table codes only grow, strictly except at the KEY_HANGUEL alias. */
  lemma {:induction false} CertifiedIncrease(t: seq<NameValue>, j: nat, i: nat)
    requires forall k | 0 <= k < |t| :: RowCertified(t, k)
    requires j < i < |t|
    ensures t[j].value <= t[i].value
    ensures t[j].value == t[i].value <==> j == HangeulRow && i == HanguelRow
    decreases i - j
  {
    assert RowCertified(t, i - 1);
    if i - j > 1 {
      CertifiedIncrease(t, j, i - 1);
    }
  }

  /** Codes never decrease along the table, and the only repeated code is the one that
      KEY_HANGUEL shares with the KEY_HANGEUL row just before it. */
  lemma CodesIncrease(j: nat, i: nat)
    requires j < i < |KeyTable|
    ensures KeyTable[j].value <= KeyTable[i].value
    ensures KeyTable[j].value == KeyTable[i].value <==> j == HangeulRow && i == HanguelRow
  {
    AllRowsCertified();
    CertifiedIncrease(KeyTable, j, i);
  }

  /** The code of every row's name is that row's code: the scan stops at the row itself. */
  lemma LookupKeycodeOfRow(i: nat)
    requires i < |KeyTable|
    ensures LookupKeycode(KeyTable[i].name) == KeyTable[i].value
  {
    KeyTableNamesDistinct();
    var k := FirstNamed(KeyTable, KeyTable[i].name, 0);
    assert k <= i;
  }

  /** Table membership decides lookup_keycode, so its answer does not depend on row order. */
  lemma LookupKeycodeIsMembership(name: string, code: nat)
    ensures LookupKeycode(name) == code <==> NameValue(name, code) in KeyTable
  {
    if NameValue(name, code) in KeyTable {
      var i :| 0 <= i < |KeyTable| && KeyTable[i] == NameValue(name, code);
      LookupKeycodeOfRow(i);
    }
  }

  /** For every code in the table, lookup_keycode(lookup_keyname(c)) == c. */
  lemma KeycodeOfKeyname(code: int)
    requires IsKeyCode(code)
    ensures LookupKeycode(LookupKeyname(code)) == code
  {
    var i :| 0 <= i < |KeyTable| && KeyTable[i] == NameValue(LookupKeyname(code), code);
    LookupKeycodeOfRow(i);
  }

  /** For every name in the table, lookup_keyname(lookup_keycode(n)) is a name with the same
      code, and it is `n` itself except for the alias KEY_HANGUEL, which comes back as
      KEY_HANGEUL. */
  lemma KeynameOfKeycode(name: string)
    requires IsKeyName(name)
    ensures LookupKeycode(LookupKeyname(LookupKeycode(name))) == LookupKeycode(name)
    ensures LookupKeyname(LookupKeycode(name)) == name <==> name != "KEY_HANGUEL"
    ensures name == "KEY_HANGUEL" ==> LookupKeyname(LookupKeycode(name)) == "KEY_HANGEUL"
  {
    var i :| 0 <= i < |KeyTable| && KeyTable[i].name == name;
    LookupKeycodeOfRow(i);
    var code := KeyTable[i].value;
    KeycodeOfKeyname(code);
    var k := FirstValued(KeyTable, code, 0);
    assert k <= i;
    KeyTableNamesDistinct();
    assert KeyTable[HangeulRow] == NameValue("KEY_HANGEUL", 122);
    assert KeyTable[HanguelRow] == NameValue("KEY_HANGUEL", 122);
    if k < i {
      CodesIncrease(k, i);
    }
    if i == HanguelRow {
      assert k == HangeulRow by {
        if k < HangeulRow {
          CodesIncrease(k, i);
        }
      }
    }
  }

  /** A code outside the table is named KEY_UNKNOWN, which itself maps back to 240. */
  lemma UnknownCodeRoundTrip(code: int)
    requires !IsKeyCode(code)
    ensures LookupKeyname(code) == UnknownKeyName
    ensures LookupKeycode(LookupKeyname(code)) == 240
  {
    assert KeyTable[TableSize - 1] == NameValue(UnknownKeyName, 240);
    LookupKeycodeOfRow(TableSize - 1);
  }

  /** The sentinel's code 0 is never matched: the scan stops at the sentinel's NULL name. */
  lemma SentinelCodeUnmatched()
    ensures !IsKeyCode(0)
    ensures LookupKeyname(0) == UnknownKeyName
  {
    assert KeyTable[0].value == 1;
    forall i | 0 < i < |KeyTable|
      ensures KeyTable[i].value != 0
    {
      CodesIncrease(0, i);
    }
  }

  // ---------------------------------------------------------------------------------------
  // Certificate behind KeyTableNamesDistinct and CodesIncrease, checked one block at a time
  //
  // Distinctness of 140 names compared pairwise is about 9700 string comparisons, far more
  // than the solver handles in one proof, and a symbolic `KeyTable[i]` unfolds Row(i) into
  // every literal of the table. So distinctness goes through an injective summary instead:
  // Fingerprint maps each row's name to one integer (length plus last four characters), and
  // FingerprintRow is a binary search tree over the 140 fingerprints, written out once from
  // the table, that returns the row owning a fingerprint. RowCertified(t, i) checks, for one
  // row, that the tree sends the row's fingerprint back to i and that the next row's code is
  // not smaller (equal only after KEY_HANGEUL). The tree is not trusted: the CertifyRows lemmas below check
  // RowCertified on every row, two rows per lemma so that each proof stays small, and
  // CertifiedDistinct derives distinct names from it (two rows with one name would have one
  // fingerprint, so the tree would send both to the same row).
  // ---------------------------------------------------------------------------------------

  /** A fingerprint of a name: its length and its last four characters. */
  function Fingerprint(s: string): int
    requires |s| >= 4
  {
    var n := |s|;
    n + 64 * (s[n - 1] as int + 128 * (s[n - 2] as int + 128 * (s[n - 3] as int + 128 * s[n - 4] as int)))
  }

  /** The row whose name has fingerprint `f`, or -1. Since it inverts Fingerprint on every
      row, no two rows can share a name. */
  function FingerprintRow(f: int): int
  {
    if f < 10407809101 then
      if f < 9355129861 then
        if f < 9355128261 then
          if f < 9210360716 then
            if f < 9061372233 then
              if f < 8806551625 then
                if f < 8795083721 then
                  if f == 6495523081 then 84 else -1
                else
                  if f == 8795083721 then 110 else -1
              else
                if f < 8813965641 then
                  if f == 8806551625 then 122 else -1
                else
                  if f == 8813965641 then 117 else -1
            else
              if f < 9081344781 then
                if f < 9081344780 then
                  if f == 9061372233 then 118 else -1
                else
                  if f == 9081344780 then 28 else -1
              else
                if f < 9210360712 then
                  if f == 9081344781 then 95 else -1
                else
                  if f == 9210360712 then 106 else -1
          else
            if f < 9355127941 then
              if f < 9355127813 then
                if f < 9210360718 then
                  if f == 9210360716 then 107 else -1
                else
                  if f == 9210360718 then 112 else -1
              else
                if f < 9355127877 then
                  if f == 9355127813 then 10 else -1
                else
                  if f == 9355127877 then 1 else -1
            else
              if f < 9355128069 then
                if f < 9355128005 then
                  if f == 9355127941 then 2 else -1
                else
                  if f == 9355128005 then 3 else -1
              else
                if f < 9355128133 then
                  if f == 9355128069 then 4 else -1
                else
                  if f < 9355128197 then
                    if f == 9355128133 then 5 else -1
                  else
                    if f == 9355128197 then 6 else -1
        else
          if f < 9355129285 then
            if f < 9355128965 then
              if f < 9355128389 then
                if f < 9355128325 then
                  if f == 9355128261 then 7 else -1
                else
                  if f == 9355128325 then 8 else -1
              else
                if f < 9355128901 then
                  if f == 9355128389 then 9 else -1
                else
                  if f == 9355128901 then 29 else -1
            else
              if f < 9355129093 then
                if f < 9355129029 then
                  if f == 9355128965 then 47 else -1
                else
                  if f == 9355129029 then 45 else -1
              else
                if f < 9355129157 then
                  if f == 9355129093 then 31 else -1
                else
                  if f < 9355129221 then
                    if f == 9355129157 then 17 else -1
                  else
                    if f == 9355129221 then 32 else -1
          else
            if f < 9355129541 then
              if f < 9355129413 then
                if f < 9355129349 then
                  if f == 9355129285 then 33 else -1
                else
                  if f == 9355129349 then 34 else -1
              else
                if f < 9355129477 then
                  if f == 9355129413 then 22 else -1
                else
                  if f == 9355129477 then 35 else -1
            else
              if f < 9355129669 then
                if f < 9355129605 then
                  if f == 9355129541 then 36 else -1
                else
                  if f == 9355129605 then 37 else -1
              else
                if f < 9355129733 then
                  if f == 9355129669 then 49 else -1
                else
                  if f < 9355129797 then
                    if f == 9355129733 then 48 else -1
                  else
                    if f == 9355129797 then 23 else -1
      else
        if f < 9740801293 then
          if f < 9355130373 then
            if f < 9355130117 then
              if f < 9355129989 then
                if f < 9355129925 then
                  if f == 9355129861 then 24 else -1
                else
                  if f == 9355129925 then 15 else -1
              else
                if f < 9355130053 then
                  if f == 9355129989 then 18 else -1
                else
                  if f == 9355130053 then 30 else -1
            else
              if f < 9355130245 then
                if f < 9355130181 then
                  if f == 9355130117 then 19 else -1
                else
                  if f == 9355130181 then 21 else -1
              else
                if f < 9355130309 then
                  if f == 9355130245 then 46 else -1
                else
                  if f == 9355130309 then 16 else -1
          else
            if f < 9598259276 then
              if f < 9355130501 then
                if f < 9355130437 then
                  if f == 9355130373 then 44 else -1
                else
                  if f == 9355130437 then 20 else -1
              else
                if f < 9468162316 then
                  if f == 9355130501 then 43 else -1
                else
                  if f == 9468162316 then 99 else -1
            else
              if f < 9602511627 then
                if f < 9598259284 then
                  if f == 9598259276 then 89 else -1
                else
                  if f == 9598259284 then 91 else -1
              else
                if f < 9602511882 then
                  if f == 9602511627 then 120 else -1
                else
                  if f < 9619157771 then
                    if f == 9602511882 then 102 else -1
                  else
                    if f == 9619157771 then 121 else -1
        else
          if f < 10269389321 then
            if f < 9880384713 then
              if f < 9747149128 then
                if f < 9740801294 then
                  if f == 9740801293 then 41 else -1
                else
                  if f == 9740801294 then 53 else -1
              else
                if f < 9872938249 then
                  if f == 9747149128 then 100 else -1
                else
                  if f == 9872938249 then 104 else -1
            else
              if f < 9880384719 then
                if f < 9880384715 then
                  if f == 9880384713 then 11 else -1
                else
                  if f == 9880384715 then 73 else -1
              else
                if f < 10135106898 then
                  if f == 9880384719 then 116 else -1
                else
                  if f < 10135130188 then
                    if f == 10135106898 then 83 else -1
                  else
                    if f == 10135130188 then 88 else -1
          else
            if f < 10273591626 then
              if f < 10269389325 then
                if f < 10269389323 then
                  if f == 10269389321 then 52 else -1
                else
                  if f == 10269389323 then 96 else -1
              else
                if f < 10273477896 then
                  if f == 10269389325 then 42 else -1
                else
                  if f == 10273477896 then 103 else -1
            else
              if f < 10283938508 then
                if f < 10283938507 then
                  if f == 10273591626 then 109 else -1
                else
                  if f == 10283938507 then 68 else -1
              else
                if f < 10283938510 then
                  if f == 10283938508 then 57 else -1
                else
                  if f < 10407809100 then
                    if f == 10283938510 then 69 else -1
                  else
                    if f == 10407809100 then 124 else -1
    else
      if f < 12045569478 then
        if f < 10817811658 then
          if f < 10683544461 then
            if f < 10548163468 then
              if f < 10424586568 then
                if f < 10407818252 then
                  if f == 10407809101 then 125 else -1
                else
                  if f == 10407818252 then 113 else -1
              else
                if f < 10548163466 then
                  if f == 10424586568 then 111 else -1
                else
                  if f == 10548163466 then 90 else -1
            else
              if f < 10557633673 then
                if f < 10552537995 then
                  if f == 10548163468 then 92 else -1
                else
                  if f == 10552537995 then 139 else -1
              else
                if f < 10557633675 then
                  if f == 10557633673 then 27 else -1
                else
                  if f == 10557633675 then 94 else -1
          else
            if f < 10687680846 then
              if f < 10684575819 then
                if f < 10684575817 then
                  if f == 10683544461 then 38 else -1
                else
                  if f == 10684575817 then 50 else -1
              else
                if f < 10684575821 then
                  if f == 10684575819 then 119 else -1
                else
                  if f == 10684575821 then 93 else -1
            else
              if f < 10806128969 then
                if f < 10694997129 then
                  if f == 10687680846 then 39 else -1
                else
                  if f == 10694997129 then 114 else -1
              else
                if f < 10806128973 then
                  if f == 10806128969 then 56 else -1
                else
                  if f < 10809373961 then
                    if f == 10806128973 then 13 else -1
                  else
                    if f == 10809373961 then 82 else -1
        else
          if f < 11343074571 then
            if f < 11074564429 then
              if f < 10961302281 then
                if f < 10820940107 then
                  if f == 10817811658 then 77 else -1
                else
                  if f == 10820940107 then 126 else -1
              else
                if f < 10961302283 then
                  if f == 10961302281 then 12 else -1
                else
                  if f == 10961302283 then 115 else -1
            else
              if f < 11074720073 then
                if f < 11074564430 then
                  if f == 11074564429 then 25 else -1
                else
                  if f == 11074564430 then 26 else -1
              else
                if f < 11083084494 then
                  if f == 11074720073 then 40 else -1
                else
                  if f < 11213100298 then
                    if f == 11083084494 then 54 else -1
                  else
                    if f == 11213100298 then 108 else -1
          else
            if f < 12045569158 then
              if f < 12033086537 then
                if f < 11343074572 then
                  if f == 11343074571 then 55 else -1
                else
                  if f == 11343074572 then 98 else -1
              else
                if f < 12045569094 then
                  if f == 12033086537 then 97 else -1
                else
                  if f == 12045569094 then 58 else -1
            else
              if f < 12045569286 then
                if f < 12045569222 then
                  if f == 12045569158 then 59 else -1
                else
                  if f == 12045569222 then 60 else -1
              else
                if f < 12045569350 then
                  if f == 12045569286 then 61 else -1
                else
                  if f < 12045569414 then
                    if f == 12045569350 then 62 else -1
                  else
                    if f == 12045569414 then 63 else -1
      else
        if f < 12824489543 then
          if f < 12824488967 then
            if f < 12045693958 then
              if f < 12045569606 then
                if f < 12045569542 then
                  if f == 12045569478 then 64 else -1
                else
                  if f == 12045569542 then 65 else -1
              else
                if f < 12045669318 then
                  if f == 12045569606 then 66 else -1
                else
                  if f == 12045669318 then 87 else -1
            else
              if f < 12823679239 then
                if f < 12822639879 then
                  if f == 12045693958 then 101 else -1
                else
                  if f == 12822639879 then 51 else -1
              else
                if f < 12823720135 then
                  if f == 12823679239 then 105 else -1
                else
                  if f == 12823720135 then 0 else -1
          else
            if f < 12824489223 then
              if f < 12824489095 then
                if f < 12824489031 then
                  if f == 12824488967 then 67 else -1
                else
                  if f == 12824489031 then 85 else -1
              else
                if f < 12824489159 then
                  if f == 12824489095 then 86 else -1
                else
                  if f == 12824489159 then 127 else -1
            else
              if f < 12824489351 then
                if f < 12824489287 then
                  if f == 12824489223 then 128 else -1
                else
                  if f == 12824489287 then 129 else -1
              else
                if f < 12824489415 then
                  if f == 12824489351 then 130 else -1
                else
                  if f < 12824489479 then
                    if f == 12824489415 then 131 else -1
                  else
                    if f == 12824489479 then 132 else -1
        else
          if f < 12829985991 then
            if f < 12824497351 then
              if f < 12824497223 then
                if f < 12824497159 then
                  if f == 12824489543 then 133 else -1
                else
                  if f == 12824497159 then 134 else -1
              else
                if f < 12824497287 then
                  if f == 12824497223 then 135 else -1
                else
                  if f == 12824497287 then 136 else -1
            else
              if f < 12829985799 then
                if f < 12824497415 then
                  if f == 12824497351 then 137 else -1
                else
                  if f == 12824497415 then 138 else -1
              else
                if f < 12829985863 then
                  if f == 12829985799 then 81 else -1
                else
                  if f < 12829985927 then
                    if f == 12829985863 then 78 else -1
                  else
                    if f == 12829985927 then 79 else -1
          else
            if f < 12829986247 then
              if f < 12829986119 then
                if f < 12829986055 then
                  if f == 12829985991 then 80 else -1
                else
                  if f == 12829986055 then 74 else -1
              else
                if f < 12829986183 then
                  if f == 12829986119 then 75 else -1
                else
                  if f == 12829986183 then 76 else -1
            else
              if f < 12829986375 then
                if f < 12829986311 then
                  if f == 12829986247 then 70 else -1
                else
                  if f == 12829986311 then 71 else -1
              else
                if f < 12839301255 then
                  if f == 12829986375 then 72 else -1
                else
                  if f < 12844577671 then
                    if f == 12839301255 then 14 else -1
                  else
                    if f == 12844577671 then 123 else -1
  }

  /** What is checked of row `i` of `t`: its fingerprint leads back to it, and the step to
      the next row's code is an increase, except at the KEY_HANGEUL/KEY_HANGUEL pair. */
  predicate RowCertified(t: seq<NameValue>, i: nat)
    requires i < |t|
  {
    && |t[i].name| >= 4
    && FingerprintRow(Fingerprint(t[i].name)) == i
    && (i + 1 < |t| ==>
          && t[i].value <= t[i + 1].value
          && (t[i].value == t[i + 1].value <==> i == HangeulRow))
  }

  /** Two consecutive certified rows certify the range they span. */
  lemma LiftPair(t: seq<NameValue>, lo: nat)
    requires lo + 2 <= |t|
    requires RowCertified(t, lo) && RowCertified(t, lo + 1)
    ensures forall i | lo <= i < lo + 2 :: RowCertified(t, i)
  {
    forall i | lo <= i < lo + 2
      ensures RowCertified(t, i)
    {
      assert i == lo || i == lo + 1;
    }
  }

  /** Every row of `key_table` is certified; each CertifyRowsN checks two literal rows. */
  lemma AllRowsCertified()
    ensures forall i | 0 <= i < |KeyTable| :: RowCertified(KeyTable, i)
  {
    CertifyRows0();
    CertifyRows1();
    CertifyRows2();
    CertifyRows3();
    CertifyRows4();
    CertifyRows5();
    CertifyRows6();
    CertifyRows7();
    CertifyRows8();
    CertifyRows9();
    CertifyRows10();
    CertifyRows11();
    CertifyRows12();
    CertifyRows13();
    CertifyRows14();
    CertifyRows15();
    CertifyRows16();
    CertifyRows17();
    CertifyRows18();
    CertifyRows19();
    CertifyRows20();
    CertifyRows21();
    CertifyRows22();
    CertifyRows23();
    CertifyRows24();
    CertifyRows25();
    CertifyRows26();
    CertifyRows27();
    CertifyRows28();
    CertifyRows29();
    CertifyRows30();
    CertifyRows31();
    CertifyRows32();
    CertifyRows33();
    CertifyRows34();
    CertifyRows35();
    CertifyRows36();
    CertifyRows37();
    CertifyRows38();
    CertifyRows39();
    CertifyRows40();
    CertifyRows41();
    CertifyRows42();
    CertifyRows43();
    CertifyRows44();
    CertifyRows45();
    CertifyRows46();
    CertifyRows47();
    CertifyRows48();
    CertifyRows49();
    CertifyRows50();
    CertifyRows51();
    CertifyRows52();
    CertifyRows53();
    CertifyRows54();
    CertifyRows55();
    CertifyRows56();
    CertifyRows57();
    CertifyRows58();
    CertifyRows59();
    CertifyRows60();
    CertifyRows61();
    CertifyRows62();
    CertifyRows63();
    CertifyRows64();
    CertifyRows65();
    CertifyRows66();
    CertifyRows67();
    CertifyRows68();
    CertifyRows69();
  }

  lemma CertifyRows0()
    ensures forall i | 0 <= i < 2 :: RowCertified(KeyTable, i)
  {
    assert RowCertified(KeyTable, 0) && RowCertified(KeyTable, 1);
    LiftPair(KeyTable, 0);
  }

  lemma CertifyRows1()
    ensures forall i | 2 <= i < 4 :: RowCertified(KeyTable, i)
  {
    assert RowCertified(KeyTable, 2) && RowCertified(KeyTable, 3);
    LiftPair(KeyTable, 2);
  }

  lemma CertifyRows2()
    ensures forall i | 4 <= i < 6 :: RowCertified(KeyTable, i)
  {
    assert RowCertified(KeyTable, 4) && RowCertified(KeyTable, 5);
    LiftPair(KeyTable, 4);
  }

  lemma CertifyRows3()
    ensures forall i | 6 <= i < 8 :: RowCertified(KeyTable, i)
  {
    assert RowCertified(KeyTable, 6) && RowCertified(KeyTable, 7);
    LiftPair(KeyTable, 6);
  }

  lemma CertifyRows4()
    ensures forall i | 8 <= i < 10 :: RowCertified(KeyTable, i)
  {
    assert RowCertified(KeyTable, 8) && RowCertified(KeyTable, 9);
    LiftPair(KeyTable, 8);
  }

  lemma CertifyRows5()
    ensures forall i | 10 <= i < 12 :: RowCertified(KeyTable, i)
  {
    assert RowCertified(KeyTable, 10) && RowCertified(KeyTable, 11);
    LiftPair(KeyTable, 10);
  }

  lemma CertifyRows6()
    ensures forall i | 12 <= i < 14 :: RowCertified(KeyTable, i)
  {
    assert RowCertified(KeyTable, 12) && RowCertified(KeyTable, 13);
    LiftPair(KeyTable, 12);
  }

  lemma CertifyRows7()
    ensures forall i | 14 <= i < 16 :: RowCertified(KeyTable, i)
  {
    assert RowCertified(KeyTable, 14) && RowCertified(KeyTable, 15);
    LiftPair(KeyTable, 14);
  }

  lemma CertifyRows8()
    ensures forall i | 16 <= i < 18 :: RowCertified(KeyTable, i)
  {
    assert RowCertified(KeyTable, 16) && RowCertified(KeyTable, 17);
    LiftPair(KeyTable, 16);
  }

  lemma CertifyRows9()
    ensures forall i | 18 <= i < 20 :: RowCertified(KeyTable, i)
  {
    assert RowCertified(KeyTable, 18) && RowCertified(KeyTable, 19);
    LiftPair(KeyTable, 18);
  }

  lemma CertifyRows10()
    ensures forall i | 20 <= i < 22 :: RowCertified(KeyTable, i)
  {
    assert RowCertified(KeyTable, 20) && RowCertified(KeyTable, 21);
    LiftPair(KeyTable, 20);
  }

  lemma CertifyRows11()
    ensures forall i | 22 <= i < 24 :: RowCertified(KeyTable, i)
  {
    assert RowCertified(KeyTable, 22) && RowCertified(KeyTable, 23);
    LiftPair(KeyTable, 22);
  }

  lemma CertifyRows12()
    ensures forall i | 24 <= i < 26 :: RowCertified(KeyTable, i)
  {
    assert RowCertified(KeyTable, 24) && RowCertified(KeyTable, 25);
    LiftPair(KeyTable, 24);
  }

  lemma CertifyRows13()
    ensures forall i | 26 <= i < 28 :: RowCertified(KeyTable, i)
  {
    assert RowCertified(KeyTable, 26) && RowCertified(KeyTable, 27);
    LiftPair(KeyTable, 26);
  }

  lemma CertifyRows14()
    ensures forall i | 28 <= i < 30 :: RowCertified(KeyTable, i)
  {
    assert RowCertified(KeyTable, 28) && RowCertified(KeyTable, 29);
    LiftPair(KeyTable, 28);
  }

  lemma CertifyRows15()
    ensures forall i | 30 <= i < 32 :: RowCertified(KeyTable, i)
  {
    assert RowCertified(KeyTable, 30) && RowCertified(KeyTable, 31);
    LiftPair(KeyTable, 30);
  }

  lemma CertifyRows16()
    ensures forall i | 32 <= i < 34 :: RowCertified(KeyTable, i)
  {
    assert RowCertified(KeyTable, 32) && RowCertified(KeyTable, 33);
    LiftPair(KeyTable, 32);
  }

  lemma CertifyRows17()
    ensures forall i | 34 <= i < 36 :: RowCertified(KeyTable, i)
  {
    assert RowCertified(KeyTable, 34) && RowCertified(KeyTable, 35);
    LiftPair(KeyTable, 34);
  }

  lemma CertifyRows18()
    ensures forall i | 36 <= i < 38 :: RowCertified(KeyTable, i)
  {
    assert RowCertified(KeyTable, 36) && RowCertified(KeyTable, 37);
    LiftPair(KeyTable, 36);
  }

  lemma CertifyRows19()
    ensures forall i | 38 <= i < 40 :: RowCertified(KeyTable, i)
  {
    assert RowCertified(KeyTable, 38) && RowCertified(KeyTable, 39);
    LiftPair(KeyTable, 38);
  }

  lemma CertifyRows20()
    ensures forall i | 40 <= i < 42 :: RowCertified(KeyTable, i)
  {
    assert RowCertified(KeyTable, 40) && RowCertified(KeyTable, 41);
    LiftPair(KeyTable, 40);
  }

  lemma CertifyRows21()
    ensures forall i | 42 <= i < 44 :: RowCertified(KeyTable, i)
  {
    assert RowCertified(KeyTable, 42) && RowCertified(KeyTable, 43);
    LiftPair(KeyTable, 42);
  }

  lemma CertifyRows22()
    ensures forall i | 44 <= i < 46 :: RowCertified(KeyTable, i)
  {
    assert RowCertified(KeyTable, 44) && RowCertified(KeyTable, 45);
    LiftPair(KeyTable, 44);
  }

  lemma CertifyRows23()
    ensures forall i | 46 <= i < 48 :: RowCertified(KeyTable, i)
  {
    assert RowCertified(KeyTable, 46) && RowCertified(KeyTable, 47);
    LiftPair(KeyTable, 46);
  }

  lemma CertifyRows24()
    ensures forall i | 48 <= i < 50 :: RowCertified(KeyTable, i)
  {
    assert RowCertified(KeyTable, 48) && RowCertified(KeyTable, 49);
    LiftPair(KeyTable, 48);
  }

  lemma CertifyRows25()
    ensures forall i | 50 <= i < 52 :: RowCertified(KeyTable, i)
  {
    assert RowCertified(KeyTable, 50) && RowCertified(KeyTable, 51);
    LiftPair(KeyTable, 50);
  }

  lemma CertifyRows26()
    ensures forall i | 52 <= i < 54 :: RowCertified(KeyTable, i)
  {
    assert RowCertified(KeyTable, 52) && RowCertified(KeyTable, 53);
    LiftPair(KeyTable, 52);
  }

  lemma CertifyRows27()
    ensures forall i | 54 <= i < 56 :: RowCertified(KeyTable, i)
  {
    assert RowCertified(KeyTable, 54) && RowCertified(KeyTable, 55);
    LiftPair(KeyTable, 54);
  }

  lemma CertifyRows28()
    ensures forall i | 56 <= i < 58 :: RowCertified(KeyTable, i)
  {
    assert RowCertified(KeyTable, 56) && RowCertified(KeyTable, 57);
    LiftPair(KeyTable, 56);
  }

  lemma CertifyRows29()
    ensures forall i | 58 <= i < 60 :: RowCertified(KeyTable, i)
  {
    assert RowCertified(KeyTable, 58) && RowCertified(KeyTable, 59);
    LiftPair(KeyTable, 58);
  }

  lemma CertifyRows30()
    ensures forall i | 60 <= i < 62 :: RowCertified(KeyTable, i)
  {
    assert RowCertified(KeyTable, 60) && RowCertified(KeyTable, 61);
    LiftPair(KeyTable, 60);
  }

  lemma CertifyRows31()
    ensures forall i | 62 <= i < 64 :: RowCertified(KeyTable, i)
  {
    assert RowCertified(KeyTable, 62) && RowCertified(KeyTable, 63);
    LiftPair(KeyTable, 62);
  }

  lemma CertifyRows32()
    ensures forall i | 64 <= i < 66 :: RowCertified(KeyTable, i)
  {
    assert RowCertified(KeyTable, 64) && RowCertified(KeyTable, 65);
    LiftPair(KeyTable, 64);
  }

  lemma CertifyRows33()
    ensures forall i | 66 <= i < 68 :: RowCertified(KeyTable, i)
  {
    assert RowCertified(KeyTable, 66) && RowCertified(KeyTable, 67);
    LiftPair(KeyTable, 66);
  }

  lemma CertifyRows34()
    ensures forall i | 68 <= i < 70 :: RowCertified(KeyTable, i)
  {
    assert RowCertified(KeyTable, 68) && RowCertified(KeyTable, 69);
    LiftPair(KeyTable, 68);
  }

  lemma CertifyRows35()
    ensures forall i | 70 <= i < 72 :: RowCertified(KeyTable, i)
  {
    assert RowCertified(KeyTable, 70) && RowCertified(KeyTable, 71);
    LiftPair(KeyTable, 70);
  }

  lemma CertifyRows36()
    ensures forall i | 72 <= i < 74 :: RowCertified(KeyTable, i)
  {
    assert RowCertified(KeyTable, 72) && RowCertified(KeyTable, 73);
    LiftPair(KeyTable, 72);
  }

  lemma CertifyRows37()
    ensures forall i | 74 <= i < 76 :: RowCertified(KeyTable, i)
  {
    assert RowCertified(KeyTable, 74) && RowCertified(KeyTable, 75);
    LiftPair(KeyTable, 74);
  }

  lemma CertifyRows38()
    ensures forall i | 76 <= i < 78 :: RowCertified(KeyTable, i)
  {
    assert RowCertified(KeyTable, 76) && RowCertified(KeyTable, 77);
    LiftPair(KeyTable, 76);
  }

  lemma CertifyRows39()
    ensures forall i | 78 <= i < 80 :: RowCertified(KeyTable, i)
  {
    assert RowCertified(KeyTable, 78) && RowCertified(KeyTable, 79);
    LiftPair(KeyTable, 78);
  }

  lemma CertifyRows40()
    ensures forall i | 80 <= i < 82 :: RowCertified(KeyTable, i)
  {
    assert RowCertified(KeyTable, 80) && RowCertified(KeyTable, 81);
    LiftPair(KeyTable, 80);
  }

  lemma CertifyRows41()
    ensures forall i | 82 <= i < 84 :: RowCertified(KeyTable, i)
  {
    assert RowCertified(KeyTable, 82) && RowCertified(KeyTable, 83);
    LiftPair(KeyTable, 82);
  }

  lemma CertifyRows42()
    ensures forall i | 84 <= i < 86 :: RowCertified(KeyTable, i)
  {
    assert RowCertified(KeyTable, 84) && RowCertified(KeyTable, 85);
    LiftPair(KeyTable, 84);
  }

  lemma CertifyRows43()
    ensures forall i | 86 <= i < 88 :: RowCertified(KeyTable, i)
  {
    assert RowCertified(KeyTable, 86) && RowCertified(KeyTable, 87);
    LiftPair(KeyTable, 86);
  }

  lemma CertifyRows44()
    ensures forall i | 88 <= i < 90 :: RowCertified(KeyTable, i)
  {
    assert RowCertified(KeyTable, 88) && RowCertified(KeyTable, 89);
    LiftPair(KeyTable, 88);
  }

  lemma CertifyRows45()
    ensures forall i | 90 <= i < 92 :: RowCertified(KeyTable, i)
  {
    assert RowCertified(KeyTable, 90) && RowCertified(KeyTable, 91);
    LiftPair(KeyTable, 90);
  }

  lemma CertifyRows46()
    ensures forall i | 92 <= i < 94 :: RowCertified(KeyTable, i)
  {
    assert RowCertified(KeyTable, 92) && RowCertified(KeyTable, 93);
    LiftPair(KeyTable, 92);
  }

  lemma CertifyRows47()
    ensures forall i | 94 <= i < 96 :: RowCertified(KeyTable, i)
  {
    assert RowCertified(KeyTable, 94) && RowCertified(KeyTable, 95);
    LiftPair(KeyTable, 94);
  }

  lemma CertifyRows48()
    ensures forall i | 96 <= i < 98 :: RowCertified(KeyTable, i)
  {
    assert RowCertified(KeyTable, 96) && RowCertified(KeyTable, 97);
    LiftPair(KeyTable, 96);
  }

  lemma CertifyRows49()
    ensures forall i | 98 <= i < 100 :: RowCertified(KeyTable, i)
  {
    assert RowCertified(KeyTable, 98) && RowCertified(KeyTable, 99);
    LiftPair(KeyTable, 98);
  }

  lemma CertifyRows50()
    ensures forall i | 100 <= i < 102 :: RowCertified(KeyTable, i)
  {
    assert RowCertified(KeyTable, 100) && RowCertified(KeyTable, 101);
    LiftPair(KeyTable, 100);
  }

  lemma CertifyRows51()
    ensures forall i | 102 <= i < 104 :: RowCertified(KeyTable, i)
  {
    assert RowCertified(KeyTable, 102) && RowCertified(KeyTable, 103);
    LiftPair(KeyTable, 102);
  }

  lemma CertifyRows52()
    ensures forall i | 104 <= i < 106 :: RowCertified(KeyTable, i)
  {
    assert RowCertified(KeyTable, 104) && RowCertified(KeyTable, 105);
    LiftPair(KeyTable, 104);
  }

  lemma CertifyRows53()
    ensures forall i | 106 <= i < 108 :: RowCertified(KeyTable, i)
  {
    assert RowCertified(KeyTable, 106) && RowCertified(KeyTable, 107);
    LiftPair(KeyTable, 106);
  }

  lemma CertifyRows54()
    ensures forall i | 108 <= i < 110 :: RowCertified(KeyTable, i)
  {
    assert RowCertified(KeyTable, 108) && RowCertified(KeyTable, 109);
    LiftPair(KeyTable, 108);
  }

  lemma CertifyRows55()
    ensures forall i | 110 <= i < 112 :: RowCertified(KeyTable, i)
  {
    assert RowCertified(KeyTable, 110) && RowCertified(KeyTable, 111);
    LiftPair(KeyTable, 110);
  }

  lemma CertifyRows56()
    ensures forall i | 112 <= i < 114 :: RowCertified(KeyTable, i)
  {
    assert RowCertified(KeyTable, 112) && RowCertified(KeyTable, 113);
    LiftPair(KeyTable, 112);
  }

  lemma CertifyRows57()
    ensures forall i | 114 <= i < 116 :: RowCertified(KeyTable, i)
  {
    assert RowCertified(KeyTable, 114) && RowCertified(KeyTable, 115);
    LiftPair(KeyTable, 114);
  }

  lemma CertifyRows58()
    ensures forall i | 116 <= i < 118 :: RowCertified(KeyTable, i)
  {
    assert RowCertified(KeyTable, 116) && RowCertified(KeyTable, 117);
    LiftPair(KeyTable, 116);
  }

  lemma CertifyRows59()
    ensures forall i | 118 <= i < 120 :: RowCertified(KeyTable, i)
  {
    assert RowCertified(KeyTable, 118) && RowCertified(KeyTable, 119);
    LiftPair(KeyTable, 118);
  }

  lemma CertifyRows60()
    ensures forall i | 120 <= i < 122 :: RowCertified(KeyTable, i)
  {
    assert RowCertified(KeyTable, 120) && RowCertified(KeyTable, 121);
    LiftPair(KeyTable, 120);
  }

  lemma CertifyRows61()
    ensures forall i | 122 <= i < 124 :: RowCertified(KeyTable, i)
  {
    assert RowCertified(KeyTable, 122) && RowCertified(KeyTable, 123);
    LiftPair(KeyTable, 122);
  }

  lemma CertifyRows62()
    ensures forall i | 124 <= i < 126 :: RowCertified(KeyTable, i)
  {
    assert RowCertified(KeyTable, 124) && RowCertified(KeyTable, 125);
    LiftPair(KeyTable, 124);
  }

  lemma CertifyRows63()
    ensures forall i | 126 <= i < 128 :: RowCertified(KeyTable, i)
  {
    assert RowCertified(KeyTable, 126) && RowCertified(KeyTable, 127);
    LiftPair(KeyTable, 126);
  }

  lemma CertifyRows64()
    ensures forall i | 128 <= i < 130 :: RowCertified(KeyTable, i)
  {
    assert RowCertified(KeyTable, 128) && RowCertified(KeyTable, 129);
    LiftPair(KeyTable, 128);
  }

  lemma CertifyRows65()
    ensures forall i | 130 <= i < 132 :: RowCertified(KeyTable, i)
  {
    assert RowCertified(KeyTable, 130) && RowCertified(KeyTable, 131);
    LiftPair(KeyTable, 130);
  }

  lemma CertifyRows66()
    ensures forall i | 132 <= i < 134 :: RowCertified(KeyTable, i)
  {
    assert RowCertified(KeyTable, 132) && RowCertified(KeyTable, 133);
    LiftPair(KeyTable, 132);
  }

  lemma CertifyRows67()
    ensures forall i | 134 <= i < 136 :: RowCertified(KeyTable, i)
  {
    assert RowCertified(KeyTable, 134) && RowCertified(KeyTable, 135);
    LiftPair(KeyTable, 134);
  }

  lemma CertifyRows68()
    ensures forall i | 136 <= i < 138 :: RowCertified(KeyTable, i)
  {
    assert RowCertified(KeyTable, 136) && RowCertified(KeyTable, 137);
    LiftPair(KeyTable, 136);
  }

  lemma CertifyRows69()
    ensures forall i | 138 <= i < 140 :: RowCertified(KeyTable, i)
  {
    assert RowCertified(KeyTable, 138) && RowCertified(KeyTable, 139);
    LiftPair(KeyTable, 138);
  }

  // ---------------------------------------------------------------------------------------

  /** Row `i` of `key_table` (src/keycodes.c:11-154), in source order. The terminating
      `{NULL, 0}` sentinel is not a row: it is the end of the sequence. The array is split
      into blocks of twenty rows so that the solver only ever unfolds the block it needs. */
  function Row(i: nat): NameValue
    requires i < TableSize
  {
    if i < 20 then Block0(i)
    else if i < 40 then Block1(i - 20)
    else if i < 60 then Block2(i - 40)
    else if i < 80 then Block3(i - 60)
    else if i < 100 then Block4(i - 80)
    else if i < 120 then Block5(i - 100)
    else Block6(i - 120)
  }

  // src/keycodes.c:11-30
  function Block0(k: nat): NameValue
  {
    match k
    case 0 => NameValue("KEY_ESC", 1)
    case 1 => NameValue("KEY_1", 2)
    case 2 => NameValue("KEY_2", 3)
    case 3 => NameValue("KEY_3", 4)
    case 4 => NameValue("KEY_4", 5)
    case 5 => NameValue("KEY_5", 6)
    case 6 => NameValue("KEY_6", 7)
    case 7 => NameValue("KEY_7", 8)
    case 8 => NameValue("KEY_8", 9)
    case 9 => NameValue("KEY_9", 10)
    case 10 => NameValue("KEY_0", 11)
    case 11 => NameValue("KEY_MINUS", 12)
    case 12 => NameValue("KEY_EQUAL", 13)
    case 13 => NameValue("KEY_BACKSPACE", 14)
    case 14 => NameValue("KEY_TAB", 15)
    case 15 => NameValue("KEY_Q", 16)
    case 16 => NameValue("KEY_W", 17)
    case 17 => NameValue("KEY_E", 18)
    case 18 => NameValue("KEY_R", 19)
    case _ => NameValue("KEY_T", 20)
  }

  // src/keycodes.c:31-50
  function Block1(k: nat): NameValue
  {
    match k
    case 0 => NameValue("KEY_Y", 21)
    case 1 => NameValue("KEY_U", 22)
    case 2 => NameValue("KEY_I", 23)
    case 3 => NameValue("KEY_O", 24)
    case 4 => NameValue("KEY_P", 25)
    case 5 => NameValue("KEY_LEFTBRACE", 26)
    case 6 => NameValue("KEY_RIGHTBRACE", 27)
    case 7 => NameValue("KEY_ENTER", 28)
    case 8 => NameValue("KEY_LEFTCTRL", 29)
    case 9 => NameValue("KEY_A", 30)
    case 10 => NameValue("KEY_S", 31)
    case 11 => NameValue("KEY_D", 32)
    case 12 => NameValue("KEY_F", 33)
    case 13 => NameValue("KEY_G", 34)
    case 14 => NameValue("KEY_H", 35)
    case 15 => NameValue("KEY_J", 36)
    case 16 => NameValue("KEY_K", 37)
    case 17 => NameValue("KEY_L", 38)
    case 18 => NameValue("KEY_SEMICOLON", 39)
    case _ => NameValue("KEY_APOSTROPHE", 40)
  }

  // src/keycodes.c:51-70
  function Block2(k: nat): NameValue
  {
    match k
    case 0 => NameValue("KEY_GRAVE", 41)
    case 1 => NameValue("KEY_LEFTSHIFT", 42)
    case 2 => NameValue("KEY_BACKSLASH", 43)
    case 3 => NameValue("KEY_Z", 44)
    case 4 => NameValue("KEY_X", 45)
    case 5 => NameValue("KEY_C", 46)
    case 6 => NameValue("KEY_V", 47)
    case 7 => NameValue("KEY_B", 48)
    case 8 => NameValue("KEY_N", 49)
    case 9 => NameValue("KEY_M", 50)
    case 10 => NameValue("KEY_COMMA", 51)
    case 11 => NameValue("KEY_DOT", 52)
    case 12 => NameValue("KEY_SLASH", 53)
    case 13 => NameValue("KEY_RIGHTSHIFT", 54)
    case 14 => NameValue("KEY_KPASTERISK", 55)
    case 15 => NameValue("KEY_LEFTALT", 56)
    case 16 => NameValue("KEY_SPACE", 57)
    case 17 => NameValue("KEY_CAPSLOCK", 58)
    case 18 => NameValue("KEY_F1", 59)
    case _ => NameValue("KEY_F2", 60)
  }

  // src/keycodes.c:71-90
  function Block3(k: nat): NameValue
  {
    match k
    case 0 => NameValue("KEY_F3", 61)
    case 1 => NameValue("KEY_F4", 62)
    case 2 => NameValue("KEY_F5", 63)
    case 3 => NameValue("KEY_F6", 64)
    case 4 => NameValue("KEY_F7", 65)
    case 5 => NameValue("KEY_F8", 66)
    case 6 => NameValue("KEY_F9", 67)
    case 7 => NameValue("KEY_F10", 68)
    case 8 => NameValue("KEY_NUMLOCK", 69)
    case 9 => NameValue("KEY_SCROLLLOCK", 70)
    case 10 => NameValue("KEY_KP7", 71)
    case 11 => NameValue("KEY_KP8", 72)
    case 12 => NameValue("KEY_KP9", 73)
    case 13 => NameValue("KEY_KPMINUS", 74)
    case 14 => NameValue("KEY_KP4", 75)
    case 15 => NameValue("KEY_KP5", 76)
    case 16 => NameValue("KEY_KP6", 77)
    case 17 => NameValue("KEY_KPPLUS", 78)
    case 18 => NameValue("KEY_KP1", 79)
    case _ => NameValue("KEY_KP2", 80)
  }

  // src/keycodes.c:91-111
  function Block4(k: nat): NameValue
  {
    match k
    case 0 => NameValue("KEY_KP3", 81)
    case 1 => NameValue("KEY_KP0", 82)
    case 2 => NameValue("KEY_KPDOT", 83)
    case 3 => NameValue("KEY_ZENKAKUHANKAKU", 85)
    case 4 => NameValue("KEY_102ND", 86)
    case 5 => NameValue("KEY_F11", 87)
    case 6 => NameValue("KEY_F12", 88)
    case 7 => NameValue("KEY_RO", 89)
    case 8 => NameValue("KEY_KATAKANA", 90)
    case 9 => NameValue("KEY_HIRAGANA", 91)
    case 10 => NameValue("KEY_HENKAN", 92)
    case 11 => NameValue("KEY_KATAKANAHIRAGANA", 93)
    case 12 => NameValue("KEY_MUHENKAN", 94)
    case 13 => NameValue("KEY_KPJPCOMMA", 95)
    case 14 => NameValue("KEY_KPENTER", 96)
    case 15 => NameValue("KEY_RIGHTCTRL", 97)
    case 16 => NameValue("KEY_KPSLASH", 98)
    case 17 => NameValue("KEY_SYSRQ", 99)
    case 18 => NameValue("KEY_RIGHTALT", 100)
    case _ => NameValue("KEY_LINEFEED", 101)
  }

  // src/keycodes.c:112-132
  function Block5(k: nat): NameValue
  {
    match k
    case 0 => NameValue("KEY_HOME", 102)
    case 1 => NameValue("KEY_UP", 103)
    case 2 => NameValue("KEY_PAGEUP", 104)
    case 3 => NameValue("KEY_LEFT", 105)
    case 4 => NameValue("KEY_RIGHT", 106)
    case 5 => NameValue("KEY_END", 107)
    case 6 => NameValue("KEY_DOWN", 108)
    case 7 => NameValue("KEY_PAGEDOWN", 109)
    case 8 => NameValue("KEY_INSERT", 110)
    case 9 => NameValue("KEY_DELETE", 111)
    case 10 => NameValue("KEY_MACRO", 112)
    case 11 => NameValue("KEY_MUTE", 113)
    case 12 => NameValue("KEY_VOLUMEDOWN", 114)
    case 13 => NameValue("KEY_VOLUMEUP", 115)
    case 14 => NameValue("KEY_POWER", 116)
    case 15 => NameValue("KEY_KPEQUAL", 117)
    case 16 => NameValue("KEY_KPPLUSMINUS", 118)
    case 17 => NameValue("KEY_PAUSE", 119)
    case 18 => NameValue("KEY_SCALE", 120)
    case _ => NameValue("KEY_KPCOMMA", 121)
  }

  // src/keycodes.c:133-154
  function Block6(k: nat): NameValue
  {
    match k
    case 0 => NameValue("KEY_HANGEUL", 122)
    case 1 => NameValue("KEY_HANGUEL", 122)
    case 2 => NameValue("KEY_HANJA", 123)
    case 3 => NameValue("KEY_YEN", 124)
    case 4 => NameValue("KEY_LEFTMETA", 125)
    case 5 => NameValue("KEY_RIGHTMETA", 126)
    case 6 => NameValue("KEY_COMPOSE", 127)
    case 7 => NameValue("KEY_F13", 183)
    case 8 => NameValue("KEY_F14", 184)
    case 9 => NameValue("KEY_F15", 185)
    case 10 => NameValue("KEY_F16", 186)
    case 11 => NameValue("KEY_F17", 187)
    case 12 => NameValue("KEY_F18", 188)
    case 13 => NameValue("KEY_F19", 189)
    case 14 => NameValue("KEY_F20", 190)
    case 15 => NameValue("KEY_F21", 191)
    case 16 => NameValue("KEY_F22", 192)
    case 17 => NameValue("KEY_F23", 193)
    case 18 => NameValue("KEY_F24", 194)
    case _ => NameValue("KEY_UNKNOWN", 240)
  }
}
