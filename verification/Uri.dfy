/** Percent encoding, form bodies and query strings (src/uri.cpp, src/natives.cpp), with the parser
    a server applies to them: section 5.1 of the WHATWG URL Standard for
    application/x-www-form-urlencoded, and section 2.1 of RFC 3986 for percent decoding. */
module Uri {
  import opened Text

  type Field = (string, string)

  /** Every char is a byte. */
  predicate Octets(s: string) {
    forall i :: 0 <= i < |s| ==> s[i] as int < 256
  }

  predicate AllOctets(fields: seq<Field>) {
    forall i :: 0 <= i < |fields| ==> Octets(fields[i].0) && Octets(fields[i].1)
  }

  // ---------------------------------------------------------------- encoding

  predicate IsUnreserved(c: char) {
    || 'A' <= c <= 'Z' || 'a' <= c <= 'z' || '0' <= c <= '9'
    || c == '-' || c == '_' || c == '.' || c == '~'
  }

  const HEX := "0123456789ABCDEF"

  function EncodeOctet(c: char): string
    requires c as int < 256
  {
    if IsUnreserved(c) then [c] else ['%', HEX[c as int / 16], HEX[c as int % 16]]
  }

  function Encode(s: string): string
    requires Octets(s)
  {
    if s == "" then "" else EncodeOctet(s[0]) + Encode(s[1..])
  }

  lemma {:induction false} EncodeConcat(a: string, b: string)
    requires Octets(a) && Octets(b)
    ensures Octets(a + b) && Encode(a + b) == Encode(a) + Encode(b)
  {
    hide EncodeOctet;
    if a == "" {
      assert a + b == b;
    } else {
      EncodeConcat(a[1..], b);
      FirstOctet(a, b);
      Associate(EncodeOctet(a[0]), Encode(a[1..]), Encode(b));
    }
  }

  lemma FirstOctet(a: string, b: string)
    requires a != "" && Octets(a) && Octets(b)
    ensures Octets(a + b) && Octets(a[1..] + b) && Encode(a + b) == EncodeOctet(a[0]) + Encode(a[1..] + b)
  {
    hide EncodeOctet;
    assert (a + b)[1..] == a[1..] + b;
  }

  method UriEncode(input: string) returns (out: string)
    requires Octets(input)
    ensures out == Encode(input)
  {
    out := "";
    var n := 0;
    while n < |input|
      invariant n <= |input| && out == Encode(input[..n])
    {
      var c := input[n];
      assert input[..n + 1] == input[..n] + [c];
      EncodeConcat(input[..n], [c]);
      assert Encode([c]) == EncodeOctet(c);
      n := n + 1;
      if IsUnreserved(c) {
        out := out + [c];
        continue;
      }
      out := out + ['%'];
      out := out + [HEX[c as int / 16]];
      out := out + [HEX[c as int % 16]];
    }
    assert input[..n] == input;
  }

  // ---------------------------------------------------------------- form bodies

  function Pair(field: Field): string
    requires Octets(field.0) && Octets(field.1)
  {
    Encode(field.0) + "=" + Encode(field.1)
  }

  /** The form serialization: the pairs, separated by ampersands. */
  function FormBody(fields: seq<Field>): string
    requires AllOctets(fields)
  {
    if fields == [] then ""
    else if |fields| == 1 then Pair(fields[0])
    else Pair(fields[0]) + "&" + FormBody(fields[1..])
  }

  /** Adding a pair at the end adds a separator exactly when there is something to separate it from. */
  lemma {:induction false} FormBodySnoc(fields: seq<Field>, last: Field)
    requires AllOctets(fields) && Octets(last.0) && Octets(last.1)
    ensures AllOctets(fields + [last])
    ensures FormBody(fields) == "" <==> fields == []
    ensures FormBody(fields + [last]) == if fields == [] then Pair(last) else FormBody(fields) + "&" + Pair(last)
  {
    hide Encode, Octets;
    if fields == [] {
      assert fields + [last] == [last];
    } else {
      FormBodySnoc(fields[1..], last);
      assert (fields + [last])[1..] == fields[1..] + [last];
    }
  }

  lemma NoFields()
    ensures FormBody([]) == ""
  {
  }

  lemma PairIs(field: Field)
    requires Octets(field.0) && Octets(field.1)
    ensures Pair(field) == Encode(field.0) + "=" + Encode(field.1)
  {
  }

  method BuildFormBody(fields: seq<Field>) returns (body: string)
    requires AllOctets(fields)
    ensures body == FormBody(fields)
  {
    hide Encode, Octets, FormBody, Pair;
    body := "";
    NoFields();
    var n := 0;
    while n < |fields|
      invariant n <= |fields| && body == FormBody(fields[..n])
    {
      assert fields[..n + 1] == fields[..n] + [fields[n]];
      FormBodySnoc(fields[..n], fields[n]);
      PairIs(fields[n]);
      if body != "" {
        body := body + "&";
      }
      var name := UriEncode(fields[n].0);
      var value := UriEncode(fields[n].1);
      body := body + (name + "=" + value);
      n := n + 1;
    }
    assert fields[..n] == fields;
  }

  /** RESTRequest.SetQuery on the request's query string: after any number of calls, in order, the
      query is the form body of the parameters set so far. */
  method SetQuery(query: string, name: string, value: string, ghost sofar: seq<Field>) returns (query': string)
    requires AllOctets(sofar) && query == FormBody(sofar) && Octets(name) && Octets(value)
    ensures AllOctets(sofar + [(name, value)]) && query' == FormBody(sofar + [(name, value)])
  {
    FormBodySnoc(sofar, (name, value));
    var encodedName := UriEncode(name);
    var encodedValue := UriEncode(value);
    query' := query;
    if query' != "" {
      query' := query' + "&";
    }
    query' := query' + (encodedName + "=" + encodedValue);
  }

  // ---------------------------------------------------------------- the server's parser

  predicate IsHex(c: char) {
    '0' <= c <= '9' || 'A' <= c <= 'F' || 'a' <= c <= 'f'
  }

  function HexValue(c: char): (v: int)
    requires IsHex(c)
    ensures 0 <= v < 16
  {
    if c <= '9' then c as int - '0' as int
    else if c <= 'F' then c as int - 'A' as int + 10
    else c as int - 'a' as int + 10
  }

  /** A percent sign not followed by two hexadecimal digits stands for itself. */
  function PercentDecode(s: string): string {
    if s == "" then ""
    else if s[0] == '%' && |s| >= 3 && IsHex(s[1]) && IsHex(s[2]) then
      [(HexValue(s[1]) * 16 + HexValue(s[2])) as char] + PercentDecode(s[3..])
    else [s[0]] + PercentDecode(s[1..])
  }

  function PlusToSpace(s: string): (r: string)
    ensures |r| == |s|
  {
    seq(|s|, i requires 0 <= i < |s| => if s[i] == '+' then ' ' else s[i])
  }

  function DecodePart(s: string): string {
    PercentDecode(PlusToSpace(s))
  }

  /** Up to the first equals sign is the name; without one the whole piece is the name. */
  function ParsePiece(piece: string): Field {
    var eq := IndexOf(piece, '=');
    if eq == |piece| then (DecodePart(piece), "")
    else (DecodePart(piece[..eq]), DecodePart(piece[eq + 1..]))
  }

  /** Pieces between ampersands; empty pieces are skipped. */
  function ParseForm(s: string): seq<Field>
    decreases |s|
  {
    if s == "" then []
    else
      var amp := IndexOf(s, '&');
      (if amp == 0 then [] else [ParsePiece(s[..amp])])
      + (if amp == |s| then [] else ParseForm(s[amp + 1..]))
  }

  // ---------------------------------------------------------------- round trip

  predicate Free(s: string, c: char) {
    forall i :: 0 <= i < |s| ==> s[i] != c
  }

  /** What encoding leaves: unreserved characters, percent signs and hexadecimal digits. */
  lemma {:induction false} EncodeAlphabet(s: string)
    requires Octets(s)
    ensures forall i :: 0 <= i < |Encode(s)| ==> IsUnreserved(Encode(s)[i]) || Encode(s)[i] == '%'
  {
    if s != "" {
      EncodeAlphabet(s[1..]);
      OctetAlphabet(s[0]);
    }
  }

  /** Letters, digits and four marks stay as they are; any other octet becomes a percent sign and its two
      upper-case hexadecimal digits. */
  lemma OctetMeaning(c: char)
    requires c as int < 256
    ensures var e := EncodeOctet(c);
            if 'A' <= c <= 'Z' || 'a' <= c <= 'z' || '0' <= c <= '9' || c in "-_.~" then e == [c]
            else
              && |e| == 3 && e[0] == '%' && e[1] in "0123456789ABCDEF" && e[2] in "0123456789ABCDEF"
              && HexValue(e[1]) * 16 + HexValue(e[2]) == c as int
  {
    HexDigits(c as int / 16);
    HexDigits(c as int % 16);
  }

  lemma OctetAlphabet(c: char)
    requires c as int < 256
    ensures forall i :: 0 <= i < |EncodeOctet(c)| ==> IsUnreserved(EncodeOctet(c)[i]) || EncodeOctet(c)[i] == '%'
  {
    HexDigits(c as int / 16);
    HexDigits(c as int % 16);
  }

  lemma HexDigits(v: int)
    requires 0 <= v < 16
    ensures IsHex(HEX[v]) && HexValue(HEX[v]) == v && IsUnreserved(HEX[v])
  {
    assert v < 10 ==> HEX[v] as int == '0' as int + v;
    assert v >= 10 ==> HEX[v] as int == 'A' as int + v - 10;
  }

  lemma OctetDecodes(c: char, rest: string)
    requires c as int < 256
    ensures PercentDecode(EncodeOctet(c) + rest) == [c] + PercentDecode(rest)
  {
    var s := EncodeOctet(c) + rest;
    if IsUnreserved(c) {
      assert s[1..] == rest;
    } else {
      HexDigits(c as int / 16);
      HexDigits(c as int % 16);
      assert s[0] == '%' && s[1] == HEX[c as int / 16] && s[2] == HEX[c as int % 16] && s[3..] == rest;
      assert (c as int / 16) * 16 + c as int % 16 == c as int;
    }
  }

  lemma {:induction false} DecodeEncode(s: string)
    requires Octets(s)
    ensures PercentDecode(Encode(s)) == s
  {
    if s != "" {
      OctetDecodes(s[0], Encode(s[1..]));
      DecodeEncode(s[1..]);
    }
  }

  /** A name or value read back by the server is the one that was set. */
  lemma PartRoundTrip(s: string)
    requires Octets(s)
    ensures DecodePart(Encode(s)) == s
  {
    EncodeAlphabet(s);
    assert PlusToSpace(Encode(s)) == Encode(s);
    DecodeEncode(s);
  }

  lemma FirstAt(s: string, c: char, i: nat)
    requires i <= |s| && (forall k :: 0 <= k < i ==> s[k] != c) && (i < |s| ==> s[i] == c)
    ensures IndexOf(s, c) == i
  {
  }

  lemma EncodeFree(s: string)
    requires Octets(s)
    ensures forall c :: c in {'&', '=', '#', '?', '+'} ==> Free(Encode(s), c)
  {
    EncodeAlphabet(s);
    hide Encode;
  }

  lemma PieceSplits(name: string, value: string)
    requires Free(name, '=')
    ensures ParsePiece(name + "=" + value) == (DecodePart(name), DecodePart(value))
  {
    hide DecodePart;
    var piece := name + "=" + value;
    FirstAt(piece, '=', |name|);
    assert piece[..|name|] == name && piece[|name| + 1..] == value;
  }

  lemma PieceFree(name: string, value: string, c: char)
    requires Free(name, c) && Free(value, c) && c != '='
    ensures Free(name + "=" + value, c)
  {
  }

  lemma PairRoundTrip(field: Field)
    requires Octets(field.0) && Octets(field.1)
    ensures ParsePiece(Pair(field)) == field && Pair(field) != ""
    ensures Free(Pair(field), '&') && Free(Pair(field), '#') && Free(Pair(field), '?')
  {
    EncodeFree(field.0);
    EncodeFree(field.1);
    PartRoundTrip(field.0);
    PartRoundTrip(field.1);
    hide Encode, DecodePart, Octets, Free, ParsePiece;
    var name, value := Encode(field.0), Encode(field.1);
    PieceSplits(name, value);
    PieceFree(name, value, '&');
    PieceFree(name, value, '#');
    PieceFree(name, value, '?');
    assert |Pair(field)| > 0;
  }

  /** Parsing commutes with joining by an ampersand. */
  lemma {:induction false} ParseJoined(a: string, b: string)
    ensures ParseForm(a + "&" + b) == ParseForm(a) + ParseForm(b)
    decreases |a|
  {
    hide ParsePiece;
    var s := a + "&" + b;
    var amp := IndexOf(a, '&');
    FirstAt(s, '&', amp);
    assert s[..amp] == a[..amp];
    if amp == |a| {
      assert s[amp + 1..] == b;
      assert a[..amp] == a;
    } else {
      assert s[amp + 1..] == a[amp + 1..] + "&" + b;
      ParseJoined(a[amp + 1..], b);
    }
  }

  lemma ParseSingle(piece: string)
    requires piece != "" && Free(piece, '&')
    ensures ParseForm(piece) == [ParsePiece(piece)]
  {
    hide ParsePiece;
    FirstAt(piece, '&', |piece|);
    assert piece[..|piece|] == piece;
  }

  /** The server reads exactly the list that was added, empty names and values included. */
  lemma {:induction false} FormRoundTrip(fields: seq<Field>)
    requires AllOctets(fields)
    ensures ParseForm(FormBody(fields)) == fields
  {
    hide Pair, Octets, ParsePiece;
    if fields != [] {
      var rest := fields[1..];
      PairRoundTrip(fields[0]);
      ParseSingle(Pair(fields[0]));
      if rest != [] {
        FormRoundTrip(rest);
        ParseJoined(Pair(fields[0]), FormBody(rest));
      }
      assert fields == [fields[0]] + rest;
    }
  }

  lemma {:induction false} FormBodyPlain(fields: seq<Field>)
    requires AllOctets(fields)
    ensures Free(FormBody(fields), '#') && Free(FormBody(fields), '?')
  {
    hide Pair, Octets;
    if fields != [] {
      PairRoundTrip(fields[0]);
      FormBodyPlain(fields[1..]);
    }
  }

  // ---------------------------------------------------------------- URLs

  function AppendQuery(url: string, query: string): string {
    if query == "" then url
    else
      var separator := if IndexOf(url, '?') < |url| then '&' else '?';
      url + [separator] + query
  }

  /** The URL up to its fragment, split at the first question mark. */
  function BeforeFragment(url: string): string {
    url[..IndexOf(url, '#')]
  }

  function PathOf(url: string): string {
    BeforeFragment(url)[..IndexOf(BeforeFragment(url), '?')]
  }

  function QueryOf(url: string): string {
    var s := BeforeFragment(url);
    var mark := IndexOf(s, '?');
    if mark == |s| then "" else s[mark + 1..]
  }

  function Params(url: string): seq<Field> {
    ParseForm(QueryOf(url))
  }

  lemma PartsOfPlain(url: string, mark: nat)
    requires Free(url, '#') && mark <= |url| && Free(url[..mark], '?') && (mark < |url| ==> url[mark] == '?')
    ensures PathOf(url) == url[..mark] && QueryOf(url) == if mark == |url| then "" else url[mark + 1..]
  {
    FirstAt(url, '#', |url|);
    assert url[..|url|] == url;
    forall k | 0 <= k < mark ensures url[k] != '?' {
      assert url[..mark][k] != '?';
    }
    FirstAt(url, '?', mark);
    hide IndexOf;
  }

  lemma AppendToPlain(url: string, query: string)
    requires Free(url, '#') && Free(query, '#')
    ensures PathOf(AppendQuery(url, query)) == PathOf(url)
    ensures Params(AppendQuery(url, query)) == Params(url) + ParseForm(query)
  {
    ParseNothing();
    hide ParseForm, PathOf, QueryOf;
    if query != "" {
      var longer := AppendQuery(url, query);
      var mark := IndexOf(url, '?');
      PartsOfPlain(url, mark);
      assert longer[..mark] == url[..mark];
      PartsOfPlain(longer, mark);
      if mark < |url| {
        assert longer[mark + 1..] == url[mark + 1..] + "&" + query;
        ParseJoined(url[mark + 1..], query);
      } else {
        assert longer[mark + 1..] == query;
      }
    }
  }

  lemma ParseNothing()
    ensures ParseForm("") == []
  {
  }

  /** On a URL with a fragment the query lands behind the fragment, where no server sees it. */
  lemma AppendToFragment(url: string, query: string)
    requires !Free(url, '#')
    ensures Params(AppendQuery(url, query)) == Params(url)
  {
    hide ParseForm;
    var hash := IndexOf(url, '#');
    var longer := AppendQuery(url, query);
    assert hash < |url|;
    FirstAt(longer, '#', hash);
    assert longer[..hash] == url[..hash];
  }

  /** AppendQuery keeps the parameters a URL has and adds the new ones exactly when the URL has no
      fragment or there is nothing to add. */
  lemma AppendQueryAddsIff(url: string, query: string)
    requires Free(query, '#')
    ensures Params(AppendQuery(url, query)) == Params(url) + ParseForm(query)
       <==> Free(url, '#') || ParseForm(query) == []
  {
    if Free(url, '#') {
      AppendToPlain(url, query);
    } else {
      AppendToFragment(url, query);
      assert |Params(url) + ParseForm(query)| == |Params(url)| + |ParseForm(query)|;
    }
  }

  /** Whatever URL without a fragment a request starts from, the server reads its own parameters
      followed by those set on the request. */
  lemma QueryRoundTrip(url: string, fields: seq<Field>)
    requires Free(url, '#') && AllOctets(fields)
    ensures Params(AppendQuery(url, FormBody(fields))) == Params(url) + fields
    ensures PathOf(AppendQuery(url, FormBody(fields))) == PathOf(url)
    ensures fields == [] ==> AppendQuery(url, FormBody(fields)) == url
  {
    hide ParseForm, FormBody;
    FormBodyPlain(fields);
    NoFields();
    AppendToPlain(url, FormBody(fields));
    FormRoundTrip(fields);
  }

  /** A fragment loses the query. */
  lemma FragmentLosesQuery()
    ensures Params(AppendQuery("http://h/#f", "a=1")) != Params("http://h/#f") + ParseForm("a=1")
  {
    var url := "http://h/#f";
    assert url[9] == '#';
    ParseSingle("a=1");
    hide ParseForm, ParsePiece, AppendQuery, Params;
    AppendQueryAddsIff(url, "a=1");
  }
}
