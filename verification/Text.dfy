/** Header lists and text helpers (src/text.cpp).

    A std::string is modelled as a `string`, one char per byte; the header list is the
    vector of name/value pairs the extension keeps in insertion order. */
module Maybe {
  datatype Option<+T> = None | Some(value: T)
}

module Text {
  import opened Maybe

  type HeaderList = seq<(string, string)>

  lemma Associate(a: string, b: string, c: string)
    ensures (a + b) + c == a + (b + c)
  {
  }

  /** Where `c` first occurs; the length if it does not. */
  function IndexOf(s: string, c: char): (i: nat)
    ensures i <= |s| && (i < |s| ==> s[i] == c) && forall k :: 0 <= k < i ==> s[k] != c
  {
    if s == "" || s[0] == c then 0 else 1 + IndexOf(s[1..], c)
  }

  function LowerChar(c: char): char {
    if 'A' <= c <= 'Z' then c + 32 as char else c
  }

  function ToLower(s: string): (r: string)
    ensures |r| == |s| && forall i :: 0 <= i < |s| ==> r[i] == LowerChar(s[i])
  {
    seq(|s|, i requires 0 <= i < |s| => LowerChar(s[i]))
  }

  /** Two names denote the same header when they agree up to ASCII case. */
  predicate SameName(left: string, right: string) {
    ToLower(left) == ToLower(right)
  }

  /** Upper-case ASCII letters move 32 up, and nothing else moves. */
  lemma ToLowerMeaning(s: string)
    ensures |ToLower(s)| == |s|
    ensures forall i :: 0 <= i < |s| ==> ToLower(s)[i] as int == s[i] as int + (if 'A' <= s[i] <= 'Z' then 32 else 0)
    ensures forall i :: 0 <= i < |s| ==> !('A' <= ToLower(s)[i] <= 'Z')
    ensures ToLower(ToLower(s)) == ToLower(s)
  {
    assert 'A' as int == 65 && 'Z' as int == 90;
  }

  /** One character is the other, or its other case. */
  predicate SameUpToCase(a: char, b: char) {
    a == b || ('A' <= a <= 'Z' && b as int == a as int + 32) || ('A' <= b <= 'Z' && a as int == b as int + 32)
  }

  /** Two names are the same exactly when they are as long as each other and agree, character by
      character, up to the case of ASCII letters. */
  lemma SameNameMeaning(left: string, right: string)
    ensures SameName(left, right)
       <==> |left| == |right| && forall i :: 0 <= i < |left| ==> SameUpToCase(left[i], right[i])
  {
    ToLowerMeaning(left);
    ToLowerMeaning(right);
    if |left| == |right| {
      forall i | 0 <= i < |left| ensures ToLower(left)[i] == ToLower(right)[i] <==> SameUpToCase(left[i], right[i]) {
        CharMeaning(left[i], right[i]);
      }
      hide ToLower, SameUpToCase;
      assert (forall i :: 0 <= i < |left| ==> SameUpToCase(left[i], right[i])) ==> ToLower(left) == ToLower(right);
    }
  }

  lemma CharMeaning(a: char, b: char)
    ensures LowerChar(a) == LowerChar(b) <==> SameUpToCase(a, b)
  {
    assert 'A' as int == 65 && 'Z' as int == 90;
  }

  method EqualsIgnoreCase(left: string, right: string) returns (same: bool)
    ensures same <==> SameName(left, right)
    ensures same <==> |left| == |right| && forall i :: 0 <= i < |left| ==> SameUpToCase(left[i], right[i])
  {
    SameNameMeaning(left, right);
    hide SameUpToCase;
    if |left| != |right| {
      return false;
    }
    var i := 0;
    while i < |left|
      invariant 0 <= i <= |left|
      invariant forall k :: 0 <= k < i ==> LowerChar(left[k]) == LowerChar(right[k])
    {
      if LowerChar(left[i]) != LowerChar(right[i]) {
        assert ToLower(left)[i] != ToLower(right)[i];
        return false;
      }
      i := i + 1;
    }
    return true;
  }

  // ---------------------------------------------------------------- Trim

  predicate IsBlank(c: char) {
    c == ' ' || c == '\t' || c == '\r' || c == '\n'
  }

  function TrimLeft(s: string): (r: string) {
    if s != "" && IsBlank(s[0]) then TrimLeft(s[1..]) else s
  }

  function TrimRight(s: string): (r: string) {
    if s != "" && IsBlank(s[|s| - 1]) then TrimRight(s[..|s| - 1]) else s
  }

  function Trim(s: string): string {
    TrimRight(TrimLeft(s))
  }

  lemma {:induction false} TrimLeftSplits(s: string) returns (before: string)
    ensures s == before + TrimLeft(s) && (forall c :: c in before ==> IsBlank(c))
    ensures TrimLeft(s) != "" ==> !IsBlank(TrimLeft(s)[0])
  {
    if s != "" && IsBlank(s[0]) {
      var rest := TrimLeftSplits(s[1..]);
      before := [s[0]] + rest;
      assert s == [s[0]] + s[1..];
    } else {
      before := "";
    }
  }

  lemma {:induction false} TrimRightSplits(s: string) returns (after: string)
    ensures s == TrimRight(s) + after && (forall c :: c in after ==> IsBlank(c))
    ensures TrimRight(s) != "" ==> !IsBlank(TrimRight(s)[|TrimRight(s)| - 1])
  {
    if s != "" && IsBlank(s[|s| - 1]) {
      var rest := TrimRightSplits(s[..|s| - 1]);
      after := rest + [s[|s| - 1]];
      assert s == s[..|s| - 1] + [s[|s| - 1]];
    } else {
      after := "";
    }
  }

  /** Trim drops exactly a blank prefix and a blank suffix, and leaves no blank at either end. */
  lemma TrimIsMaximal(s: string) returns (before: string, after: string)
    ensures s == before + Trim(s) + after
    ensures forall c :: c in before + after ==> c in " \t\r\n"
    ensures Trim(s) != "" ==> Trim(s)[0] !in " \t\r\n" && Trim(s)[|Trim(s)| - 1] !in " \t\r\n"
  {
    before := TrimLeftSplits(s);
    after := TrimRightSplits(TrimLeft(s));
    if Trim(s) != "" {
      assert TrimLeft(s)[0] == Trim(s)[0];
    }
  }

  /** Trimming a text that begins and ends with something else gives back what was between the blanks. */
  lemma TrimGivesBack(before: string, s: string, after: string)
    requires forall c :: c in before + after ==> c in " \t\r\n"
    requires s != "" ==> s[0] !in " \t\r\n" && s[|s| - 1] !in " \t\r\n"
    ensures Trim(before + s + after) == s
  {
    if s == "" {
      assert before + s + after == before + after;
      AllBlank(before + after);
    } else {
      assert before + s + after == before + (s + after);
      LeftGivesBack(before, s + after);
      RightGivesBack(s, after);
    }
  }

  lemma {:induction false} AllBlank(s: string)
    requires forall c :: c in s ==> c in " \t\r\n"
    ensures TrimLeft(s) == ""
  {
    if s != "" {
      assert s[0] in s;
      AllBlank(s[1..]);
    }
  }

  lemma {:induction false} LeftGivesBack(before: string, s: string)
    requires (forall c :: c in before ==> c in " \t\r\n") && s != "" && s[0] !in " \t\r\n"
    ensures TrimLeft(before + s) == s
  {
    if before == "" {
      assert before + s == s;
    } else {
      assert before[0] in before && (before + s)[1..] == before[1..] + s;
      LeftGivesBack(before[1..], s);
    }
  }

  lemma {:induction false} RightGivesBack(s: string, after: string)
    requires (forall c :: c in after ==> c in " \t\r\n") && s != "" && s[|s| - 1] !in " \t\r\n"
    ensures TrimRight(s + after) == s
  {
    if after == "" {
      assert s + after == s;
    } else {
      var init := after[..|after| - 1];
      assert after[|after| - 1] in after && (s + after)[..|s + after| - 1] == s + init;
      RightGivesBack(s, init);
    }
  }

  // ---------------------------------------------------------------- header list

  /** The value of the first entry with this name. */
  function FindHeader(headers: HeaderList, name: string): Option<string> {
    if headers == [] then None
    else if SameName(headers[0].0, name) then Some(headers[0].1)
    else FindHeader(headers[1..], name)
  }

  function SetHeader(headers: HeaderList, name: string, value: string): HeaderList {
    if headers == [] then [(name, value)]
    else if SameName(headers[0].0, name) then [(headers[0].0, value)] + headers[1..]
    else [headers[0]] + SetHeader(headers[1..], name, value)
  }

  function RemoveHeader(headers: HeaderList, name: string): HeaderList {
    if headers == [] then []
    else if SameName(headers[0].0, name) then RemoveHeader(headers[1..], name)
    else [headers[0]] + RemoveHeader(headers[1..], name)
  }

  /** The finite map a header list stands for: lowered names, first entry wins. */
  function AsMap(headers: HeaderList): map<string, string> {
    if headers == [] then map[]
    else AsMap(headers[1..])[ToLower(headers[0].0) := headers[0].1]
  }

  ghost predicate UniqueNames(headers: HeaderList) {
    forall i, j :: 0 <= i < j < |headers| ==> !SameName(headers[i].0, headers[j].0)
  }

  /** Looking a name up in the list is looking its lowered form up in the map. */
  lemma {:induction false} FindHeaderAgreesWithMap(headers: HeaderList, name: string)
    ensures FindHeader(headers, name)
         == if ToLower(name) in AsMap(headers) then Some(AsMap(headers)[ToLower(name)]) else None
  {
    if headers != [] {
      FindHeaderAgreesWithMap(headers[1..], name);
    }
  }

  /** SetHeader is a map update; an entry already there keeps its place and its spelling,
      and every other entry keeps its place and its value. */
  lemma {:induction false} SetHeaderRefinesMap(headers: HeaderList, name: string, value: string)
    ensures AsMap(SetHeader(headers, name, value)) == AsMap(headers)[ToLower(name) := value]
    ensures RemoveHeader(SetHeader(headers, name, value), name) == RemoveHeader(headers, name)
    ensures var found := FindHeader(headers, name).Some?;
            var after := SetHeader(headers, name, value);
            && |after| == |headers| + (if found then 0 else 1)
            && (forall i :: 0 <= i < |headers| ==> after[i].0 == headers[i].0)
            && (!found ==> after == headers + [(name, value)])
  {
    if headers != [] {
      if SameName(headers[0].0, name) {
        assert SetHeader(headers, name, value)[1..] == headers[1..];
      } else {
        SetHeaderRefinesMap(headers[1..], name, value);
        assert SetHeader(headers, name, value)[1..] == SetHeader(headers[1..], name, value);
      }
    }
  }

  /** RemoveHeader deletes the key, and deletes nothing else. */
  lemma {:induction false} RemoveHeaderRefinesMap(headers: HeaderList, name: string)
    ensures AsMap(RemoveHeader(headers, name)) == AsMap(headers) - {ToLower(name)}
    ensures forall other :: !SameName(other, name)
              ==> FindHeader(RemoveHeader(headers, name), other) == FindHeader(headers, other)
  {
    if headers != [] {
      RemoveHeaderRefinesMap(headers[1..], name);
      if !SameName(headers[0].0, name) {
        assert RemoveHeader(headers, name)[1..] == RemoveHeader(headers[1..], name);
      }
    }
  }

  /** The entries that stay keep their order: removing works on each stretch of the list by itself. */
  lemma {:induction false} RemoveHeaderKeepsOrder(a: HeaderList, b: HeaderList, name: string)
    ensures RemoveHeader(a + b, name) == RemoveHeader(a, name) + RemoveHeader(b, name)
  {
    hide SameName;
    if a == [] {
      assert a + b == b;
    } else {
      RemoveHeaderKeepsOrder(a[1..], b, name);
      RemoveFirst(a, name);
      RemoveFirst(a + b, name);
      assert (a + b)[1..] == a[1..] + b && (a + b)[0] == a[0];
      hide RemoveHeader;
      var first := if SameName(a[0].0, name) then [] else [a[0]];
      AssociateHeaders(first, RemoveHeader(a[1..], name), RemoveHeader(b, name));
    }
  }

  lemma RemoveFirst(a: HeaderList, name: string)
    requires a != []
    ensures RemoveHeader(a, name)
         == (if SameName(a[0].0, name) then [] else [a[0]]) + RemoveHeader(a[1..], name)
  {
    hide SameName;
  }

  lemma AssociateHeaders(a: HeaderList, b: HeaderList, c: HeaderList)
    ensures (a + b) + c == a + (b + c)
  {
  }

  lemma {:induction false} NamesOfRemoved(headers: HeaderList, name: string, k: nat) returns (i: nat)
    requires k < |RemoveHeader(headers, name)|
    ensures i < |headers| && headers[i] == RemoveHeader(headers, name)[k] && !SameName(headers[i].0, name)
  {
    if SameName(headers[0].0, name) {
      var r := NamesOfRemoved(headers[1..], name, k);
      i := r + 1;
    } else if k == 0 {
      i := 0;
    } else {
      var r := NamesOfRemoved(headers[1..], name, k - 1);
      i := r + 1;
    }
  }

  lemma {:induction false} UniqueAfterRemove(headers: HeaderList, name: string)
    requires UniqueNames(headers)
    ensures UniqueNames(RemoveHeader(headers, name))
  {
    if headers != [] {
      var rest := headers[1..];
      assert forall i, j :: 0 <= i < j < |rest| ==> rest[i] == headers[i + 1] && rest[j] == headers[j + 1];
      UniqueAfterRemove(rest, name);
      var after := RemoveHeader(rest, name);
      if !SameName(headers[0].0, name) {
        forall k | 0 <= k < |after| ensures !SameName(headers[0].0, after[k].0) {
          var i := NamesOfRemoved(rest, name, k);
          assert headers[i + 1] == after[k];
        }
      }
    }
  }

  lemma UniqueAfterSet(headers: HeaderList, name: string, value: string)
    requires UniqueNames(headers)
    ensures UniqueNames(SetHeader(headers, name, value))
  {
    SetHeaderRefinesMap(headers, name, value);
    var after := SetHeader(headers, name, value);
    if FindHeader(headers, name).None? {
      forall i | 0 <= i < |headers| ensures !SameName(headers[i].0, name) {
        NotFoundMeansAbsent(headers, name, i);
      }
    }
    forall i, j | 0 <= i < j < |after| ensures !SameName(after[i].0, after[j].0) {
      assert after[i].0 == headers[i].0;
      if j < |headers| {
        assert after[j].0 == headers[j].0;
      }
    }
  }

  lemma {:induction false} NotFoundMeansAbsent(headers: HeaderList, name: string, i: nat)
    requires i < |headers| && FindHeader(headers, name).None?
    ensures !SameName(headers[i].0, name)
  {
    if i > 0 {
      NotFoundMeansAbsent(headers[1..], name, i - 1);
    }
  }

  datatype HeaderOp = Set(name: string, value: string) | Remove(name: string)

  function ApplyOps(ops: seq<HeaderOp>): HeaderList {
    if ops == [] then []
    else
      var before := ApplyOps(ops[..|ops| - 1]);
      match ops[|ops| - 1]
      case Set(name, value) => SetHeader(before, name, value)
      case Remove(name) => RemoveHeader(before, name)
  }

  function ApplyToMap(ops: seq<HeaderOp>): map<string, string> {
    if ops == [] then map[]
    else
      var before := ApplyToMap(ops[..|ops| - 1]);
      match ops[|ops| - 1]
      case Set(name, value) => before[ToLower(name) := value]
      case Remove(name) => before - {ToLower(name)}
  }

  /** Whatever SetHeader and RemoveHeader calls are made from an empty list, the list holds
      one entry per name and behaves as the map the same calls build. */
  lemma {:induction false} HeaderListRefinesMap(ops: seq<HeaderOp>, name: string)
    ensures UniqueNames(ApplyOps(ops))
    ensures AsMap(ApplyOps(ops)) == ApplyToMap(ops)
    ensures FindHeader(ApplyOps(ops), name)
         == if ToLower(name) in ApplyToMap(ops) then Some(ApplyToMap(ops)[ToLower(name)]) else None
  {
    if ops != [] {
      HeaderListRefinesMap(ops[..|ops| - 1], name);
      var before := ApplyOps(ops[..|ops| - 1]);
      match ops[|ops| - 1] {
        case Set(n, v) =>
          SetHeaderRefinesMap(before, n, v);
          UniqueAfterSet(before, n, v);
        case Remove(n) =>
          RemoveHeaderRefinesMap(before, n);
          UniqueAfterRemove(before, n);
      }
    }
    FindHeaderAgreesWithMap(ApplyOps(ops), name);
  }

  // ---------------------------------------------------------------- the vector, updated in place

  lemma {:induction false} SetHeaderAt(headers: HeaderList, i: nat, name: string, value: string)
    requires i <= |headers|
    requires forall k :: 0 <= k < i ==> !SameName(headers[k].0, name)
    ensures SetHeader(headers, name, value) == headers[..i] + SetHeader(headers[i..], name, value)
    ensures FindHeader(headers, name) == FindHeader(headers[i..], name)
  {
    if i > 0 {
      SetHeaderAt(headers[1..], i - 1, name, value);
      assert headers[1..][i - 1..] == headers[i..];
      assert [headers[0]] + headers[1..][..i - 1] == headers[..i];
    } else {
      assert headers[0..] == headers;
    }
  }

  lemma {:induction false} RemoveHeaderSnoc(headers: HeaderList, i: nat, name: string)
    requires i < |headers|
    ensures RemoveHeader(headers[..i + 1], name)
         == RemoveHeader(headers[..i], name) + (if SameName(headers[i].0, name) then [] else [headers[i]])
  {
    if i > 0 {
      RemoveHeaderSnoc(headers[1..], i - 1, name);
      assert headers[..i + 1][1..] == headers[1..][..i];
      assert headers[..i][1..] == headers[1..][..i - 1];
    }
  }

  class HeaderTable {
    var entries: HeaderList

    constructor ()
      ensures entries == []
    {
      entries := [];
    }

    method Set(name: string, value: string)
      modifies this
      ensures entries == SetHeader(old(entries), name, value)
    {
      var i := 0;
      while i < |entries|
        invariant 0 <= i <= |entries| && entries == old(entries)
        invariant forall k :: 0 <= k < i ==> !SameName(entries[k].0, name)
      {
        var same := EqualsIgnoreCase(entries[i].0, name);
        if same {
          SetHeaderAt(entries, i, name, value);
          entries := entries[i := (entries[i].0, value)];
          return;
        }
        i := i + 1;
      }
      SetHeaderAt(entries, i, name, value);
      entries := entries + [(name, value)];
    }

    method Remove(name: string)
      modifies this
      ensures entries == RemoveHeader(old(entries), name)
    {
      var kept: HeaderList := [];
      var i := 0;
      while i < |entries|
        invariant 0 <= i <= |entries| && entries == old(entries)
        invariant kept == RemoveHeader(entries[..i], name)
      {
        var same := EqualsIgnoreCase(entries[i].0, name);
        RemoveHeaderSnoc(entries, i, name);
        if !same {
          kept := kept + [entries[i]];
        }
        i := i + 1;
      }
      assert entries[..i] == entries;
      entries := kept;
    }

    method Find(name: string) returns (found: Option<string>)
      ensures found == FindHeader(entries, name)
    {
      var i := 0;
      while i < |entries|
        invariant 0 <= i <= |entries|
        invariant forall k :: 0 <= k < i ==> !SameName(entries[k].0, name)
      {
        SetHeaderAt(entries, i, name, "");
        var same := EqualsIgnoreCase(entries[i].0, name);
        if same {
          return Some(entries[i].1);
        }
        i := i + 1;
      }
      SetHeaderAt(entries, i, name, "");
      return None;
    }
  }
}
