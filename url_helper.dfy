/** Setting query and path parameters of a url, and reading a query string into a
    case-insensitive dictionary.

    The two setters locate an existing parameter with a regular expression:
      query: `[?&](KEY=?.*?)(?:&|/|$)`     path: `/(KEY/?.*?)(?:/|$)`
    where KEY is the key taken literally. Their meaning is written out below:
    the leftmost start position wins; `.` matches anything but a line break;
    `$` matches at the end or just before a final line break; `.*?` takes as
    few characters as it can. */
module UrlHelper {
  import opened Wrappers
  import opened Strings

  /** The two patterns the setters use. */
  datatype Pattern = QueryPattern | PathPattern

  /** The character the pattern starts with: `[?&]` or `/`. */
  predicate Opens(pat: Pattern, c: char) {
    match pat
    case QueryPattern => c == '?' || c == '&'
    case PathPattern => c == '/'
  }

  /** The characters the pattern's closing group `(?:&|/|$)` or `(?:/|$)` accepts. */
  predicate Stop(pat: Pattern, c: char) {
    match pat
    case QueryPattern => c == '&' || c == '/'
    case PathPattern => c == '/'
  }

  /** The closing group matches at position `e`: a stop character, or `$`. */
  predicate IsEnd(pat: Pattern, s: string, e: nat)
    requires e <= |s|
  {
    e == |s| || Stop(pat, s[e]) || (e == |s| - 1 && s[e] == '\n')
  }

  /** `key` occurs in `s` at position `i`. */
  predicate KeyAt(s: string, key: string, i: nat) {
    i + |key| <= |s| && s[i..i + |key|] == key
  }

  /** The lazy `.*?` followed by the closing group, started at `e`: the first position where the
      closing group matches, unless a line break that is not final comes first. */
  function Scan(pat: Pattern, s: string, e: nat): (r: Option<nat>)
    requires e <= |s|
    ensures r.Some? ==> e <= r.value <= |s| && IsEnd(pat, s, r.value)
    ensures r.Some? ==> forall j :: e <= j < r.value ==> !IsEnd(pat, s, j) && s[j] != '\n'
    ensures r.None? ==> exists k :: e <= k < |s| && s[k] == '\n' && !IsEnd(pat, s, k) &&
                                    forall j :: e <= j < k ==> !IsEnd(pat, s, j)
    decreases |s| - e
  {
    if IsEnd(pat, s, e) then Some(e)
    else if s[e] == '\n' then
      assert e <= e < |s| && s[e] == '\n' && !IsEnd(pat, s, e);
      None
    else
      Scan(pat, s, e + 1)
  }

  /** The match of the pattern at start position `p`, as the bounds (start, end) of its group.
      For the query pattern, the optional `=` changes nothing: `=` is neither a stop character
      nor a line break, so the scan passes over it either way. For the path pattern the
      optional `/` is taken if it lets the scan succeed, and otherwise left to close the match. */
  function MatchAt(pat: Pattern, s: string, key: string, p: nat): Option<(nat, nat)>
    requires p < |s|
  {
    var q := p + 1 + |key|;
    match pat
    case QueryPattern =>
      if Opens(pat, s[p]) && KeyAt(s, key, p + 1) then
        match Scan(pat, s, q)
        case Some(e) => Some((p + 1, e))
        case None => None
      else None
    case PathPattern =>
      if Opens(pat, s[p]) && KeyAt(s, key, p + 1) then
        if q < |s| && s[q] == '/' then
          match Scan(pat, s, q + 1)
          case Some(e) => Some((p + 1, e))
          case None => Some((p + 1, q))
        else
          match Scan(pat, s, q)
          case Some(e) => Some((p + 1, e))
          case None => None
      else None
  }

  /** The leftmost match at a start position `p` or later. */
  function MatchFrom(pat: Pattern, s: string, key: string, p: nat): (r: Option<(nat, nat)>)
    requires p <= |s|
    ensures r.Some? ==> p < r.value.0 <= |s| && MatchAt(pat, s, key, r.value.0 - 1) == r
    ensures r.Some? ==> forall p' :: p <= p' < r.value.0 - 1 ==> MatchAt(pat, s, key, p') == None
    ensures r.None? <==> forall p' :: p <= p' < |s| ==> MatchAt(pat, s, key, p') == None
    decreases |s| - p
  {
    if p == |s| then None
    else
      var m := MatchAt(pat, s, key, p);
      if m.Some? then
        assert m.value.0 == p + 1;
        m
      else MatchFrom(pat, s, key, p + 1)
  }

  /** `Regex.Match(url, pattern)`: the leftmost match in the whole url. */
  function Match(pat: Pattern, s: string, key: string): Option<(nat, nat)> {
    MatchFrom(pat, s, key, 0)
  }

  /** `SetUrlQueryParameter`: a null value counts as empty. An existing parameter's group
      (the key and everything up to the next `&`, `/` or the end) is replaced by `key=value`;
      otherwise `key=value` is appended after `?`, or after `&` when the url already has a `?`. */
  function SetUrlQueryParameter(url: string, key: string, value: Option<string>): (r: string)
    ensures Match(QueryPattern, url, key) == None ==>
              r == url + [if '?' in url then '&' else '?'] + key + "=" + OrEmpty(value)
    ensures Match(QueryPattern, url, key).Some? ==>
              var (g, e) := Match(QueryPattern, url, key).value;
              && 0 < g <= e <= |url| && (url[g - 1] == '?' || url[g - 1] == '&')
              && KeyAt(url, key, g) && g + |key| <= e && IsEnd(QueryPattern, url, e)
              && r == url[..g] + key + "=" + OrEmpty(value) + url[e..]
  {
    var v := OrEmpty(value);
    match Match(QueryPattern, url, key)
    case Some((g, e)) => url[..g] + key + "=" + v + url[e..]
    case None =>
      var separator := if '?' in url then '&' else '?';
      url + [separator] + key + "=" + v
  }

  /** `SetUrlPathParameter`: a null value counts as empty. An existing `key/old` segment is
      replaced by `key/value`; otherwise `/key/value` is appended. */
  function SetUrlPathParameter(url: string, key: string, value: Option<string>): (r: string)
    ensures Match(PathPattern, url, key) == None ==> r == url + "/" + key + "/" + OrEmpty(value)
    ensures Match(PathPattern, url, key).Some? ==>
              var (g, e) := Match(PathPattern, url, key).value;
              && 0 < g <= e <= |url| && url[g - 1] == '/'
              && KeyAt(url, key, g) && g + |key| <= e
              && r == url[..g] + key + "/" + OrEmpty(value) + url[e..]
  {
    var v := OrEmpty(value);
    match Match(PathPattern, url, key)
    case Some((g, e)) => url[..g] + key + "/" + v + url[e..]
    case None => url + "/" + key + "/" + v
  }

  /** Both setters read a null value as the empty string. */
  lemma NullValueIsEmpty(url: string, key: string)
    ensures SetUrlQueryParameter(url, key, None) == SetUrlQueryParameter(url, key, Some(""))
    ensures SetUrlPathParameter(url, key, None) == SetUrlPathParameter(url, key, Some(""))
  {
  }

  /** The match is by prefix: key `a` finds the parameter `ab=1` and replaces all of it. */
  lemma QueryKeyPrefixMatches()
    ensures SetUrlQueryParameter("x?ab=1", "a", Some("2")) == "x?a=2"
  {
    var url := "x?ab=1";
    assert KeyAt(url, "a", 2);
    assert Scan(QueryPattern, url, 3) == Some(6);
    assert MatchAt(QueryPattern, url, "a", 0) == None;
    assert MatchAt(QueryPattern, url, "a", 1) == Some((2, 6));
  }

  /** A scan that fails on `s` still fails once text is appended: it stopped at a line break
      that was not the last character of `s`. */
  lemma {:induction false} ScanFailsOnExtension(pat: Pattern, s: string, t: string, e: nat)
    requires e <= |s| && Scan(pat, s, e) == None
    ensures Scan(pat, s + t, e) == None
    decreases |s| - e
  {
    var u := s + t;
    assert u[e] == s[e];
    if s[e] != '\n' {
      ScanFailsOnExtension(pat, s, t, e + 1);
    }
  }

  /** A scan over text with no stop character and no line break runs to the end. */
  lemma {:induction false} ScanToEnd(pat: Pattern, s: string, e: nat)
    requires e <= |s|
    requires forall j :: e <= j < |s| ==> !Stop(pat, s[j]) && s[j] != '\n'
    ensures Scan(pat, s, e) == Some(|s|)
    decreases |s| - e
  {
    if e < |s| {
      ScanToEnd(pat, s, e + 1);
    }
  }

  /** No start position from `p` up to `m` matches. */
  predicate NoMatchBetween(pat: Pattern, s: string, key: string, p: nat, m: nat)
    requires m <= |s|
    decreases m - p
  {
    p >= m || (MatchAt(pat, s, key, p) == None && NoMatchBetween(pat, s, key, p + 1, m))
  }

  /** `NoMatchBetween` says of each position in turn what the quantified form says at once. */
  lemma {:induction false} NoMatchBetweenAll(pat: Pattern, s: string, key: string, p: nat, m: nat)
    requires m <= |s|
    requires forall i :: p <= i < m ==> MatchAt(pat, s, key, i) == None
    ensures NoMatchBetween(pat, s, key, p, m)
    decreases m - p
  {
    if p < m {
      NoMatchBetweenAll(pat, s, key, p + 1, m);
    }
  }

  /** The leftmost match is found at the first start position that matches: when no position
      from `p` up to `m` matches and `m` does, the search from `p` returns the match at `m`. */
  lemma {:induction false} FirstMatch(pat: Pattern, s: string, key: string, p: nat, m: nat)
    requires p <= m < |s|
    requires NoMatchBetween(pat, s, key, p, m)
    requires MatchAt(pat, s, key, m).Some?
    ensures MatchFrom(pat, s, key, p) == MatchAt(pat, s, key, m)
    decreases m - p
  {
    if p == m {
      MatchHere(pat, s, key, m);
    } else {
      FirstMatch(pat, s, key, p + 1, m);
      MatchFromStep(pat, s, key, p);
    }
  }

  /** A search that starts at a matching position returns that match. */
  lemma MatchHere(pat: Pattern, s: string, key: string, m: nat)
    requires m < |s| && MatchAt(pat, s, key, m).Some?
    ensures MatchFrom(pat, s, key, m) == MatchAt(pat, s, key, m)
  {
  }

  /** One start position with no match can be skipped. */
  lemma MatchFromStep(pat: Pattern, s: string, key: string, p: nat)
    requires p < |s| && MatchAt(pat, s, key, p) == None
    ensures MatchFrom(pat, s, key, p) == MatchFrom(pat, s, key, p + 1)
  {
  }

  /** What a failed match at `p` says: if the pattern opens there and the key follows, the key
      is not the last thing in `s`, no `/` follows it in a path, and the scan after it fails. */
  lemma MatchAtNone(pat: Pattern, s: string, key: string, p: nat)
    requires p < |s| && MatchAt(pat, s, key, p) == None
    requires Opens(pat, s[p]) && KeyAt(s, key, p + 1)
    ensures p + 1 + |key| < |s|
    ensures pat == PathPattern ==> s[p + 1 + |key|] != '/'
    ensures Scan(pat, s, p + 1 + |key|) == None
  {
  }

  /** A start position inside `url` that did not match still does not once a separator that
      cannot occur in the key, and anything after it, are appended. */
  lemma NoMatchOnExtension(pat: Pattern, url: string, key: string, sep: char, t: string, p: nat)
    requires p < |url| && MatchAt(pat, url, key, p) == None
    requires sep !in key
    ensures MatchAt(pat, url + [sep] + t, key, p) == None
  {
    var u := url + [sep] + t;
    var q := p + 1 + |key|;
    assert u[p] == url[p];
    if Opens(pat, u[p]) && KeyAt(u, key, p + 1) {
      assert u[|url|] == sep;
      assert q <= |url|;
      assert u[p + 1..q] == url[p + 1..q];
      MatchAtNone(pat, url, key, p);
      ScanFailsOnExtension(pat, url, [sep] + t, q);
      assert url + ([sep] + t) == u;
      assert u[q] == url[q];
    }
  }

  /** Setting a query parameter the url does not have, then setting it again to the same value,
      changes nothing the second time. The key must not hold `&` or `?` and the value must not
      hold `&`, `/` or a line break, or the appended parameter would not be found again. */
  lemma SetQueryIdempotent(url: string, key: string, value: string)
    requires Match(QueryPattern, url, key) == None
    requires '&' !in key && '?' !in key
    requires '&' !in value && '/' !in value && '\n' !in value
    ensures var once := SetUrlQueryParameter(url, key, Some(value));
            SetUrlQueryParameter(once, key, Some(value)) == once
  {
    var sep := if '?' in url then '&' else '?';
    var t := key + "=" + value;
    var once := url + [sep] + t;
    assert SetUrlQueryParameter(url, key, Some(value)) == once;
    var q := |url| + 1 + |key|;
    assert MatchAt(QueryPattern, once, key, |url|) == Some((|url| + 1, |once|)) by {
      assert once[|url| + 1..q] == key;
      assert once[q] == '=';
      forall j | q + 1 <= j < |once| ensures !Stop(QueryPattern, once[j]) && once[j] != '\n' {
        assert once[j] == value[j - q - 1];
      }
      ScanToEnd(QueryPattern, once, q + 1);
      assert Scan(QueryPattern, once, q) == Some(|once|);
    }
    assert Match(QueryPattern, once, key) == Some((|url| + 1, |once|)) by {
      forall p | 0 <= p < |url| ensures MatchAt(QueryPattern, once, key, p) == None {
        NoMatchOnExtension(QueryPattern, url, key, sep, t, p);
      }
      NoMatchBetweenAll(QueryPattern, once, key, 0, |url|);
      FirstMatch(QueryPattern, once, key, 0, |url|);
    }
    assert once[..|url| + 1] + key + "=" + value + once[|once|..] == once;
  }

  /** Setting a path parameter the url does not have, then setting it again to the same value,
      changes nothing the second time. The key must not hold `/` and the value must not hold
      `/` or a line break. */
  lemma SetPathIdempotent(url: string, key: string, value: string)
    requires Match(PathPattern, url, key) == None
    requires '/' !in key
    requires '/' !in value && '\n' !in value
    ensures var once := SetUrlPathParameter(url, key, Some(value));
            SetUrlPathParameter(once, key, Some(value)) == once
  {
    var t := key + "/" + value;
    var once := url + ['/'] + t;
    assert SetUrlPathParameter(url, key, Some(value)) == once;
    var q := |url| + 1 + |key|;
    assert MatchAt(PathPattern, once, key, |url|) == Some((|url| + 1, |once|)) by {
      assert once[|url| + 1..q] == key;
      assert once[q] == '/';
      forall j | q + 1 <= j < |once| ensures !Stop(PathPattern, once[j]) && once[j] != '\n' {
        assert once[j] == value[j - q - 1];
      }
      ScanToEnd(PathPattern, once, q + 1);
    }
    assert Match(PathPattern, once, key) == Some((|url| + 1, |once|)) by {
      forall p | 0 <= p < |url| ensures MatchAt(PathPattern, once, key, p) == None {
        NoMatchOnExtension(PathPattern, url, key, '/', t, p);
      }
      NoMatchBetweenAll(PathPattern, once, key, 0, |url|);
      FirstMatch(PathPattern, once, key, 0, |url|);
    }
    assert once[..|url| + 1] + key + "/" + value + once[|once|..] == once;
  }

  /** A dictionary entry: the key as first spelled, and the value. */
  datatype Entry = Entry(key: string, value: string)

  /** A `Dictionary<string, string>` under `StringComparer.OrdinalIgnoreCase`, indexed by the
      case-folded key. */
  type QueryDictionary = map<string, Entry>

  /** The case-folding the comparer applies to a key. */
  function Fold(key: string): string {
    ToUpper(key)
  }

  /** `dic[key] = value`: a key already present, in any spelling, keeps its first spelling and
      takes the new value; a new key is stored as spelled. */
  function Store(dic: QueryDictionary, key: string, value: string): QueryDictionary {
    var k := Fold(key);
    if k in dic then dic[k := Entry(dic[k].key, value)] else dic[k := Entry(key, value)]
  }

  /** The (key, value) pair a decoded piece yields: the text before its first `=`, and all
      the text after it. A piece with no `=`, or starting with one, yields nothing. */
  function PairOf(decoded: string): Option<(string, string)> {
    var eq := IndexOf(decoded, '=');
    if eq <= 0 then None else Some((decoded[..eq], decoded[eq + 1..]))
  }

  /** The pairs the pieces yield after decoding, in order. */
  function Pairs(pieces: seq<string>, urlDecode: string -> string): seq<(string, string)> {
    if pieces == [] then []
    else
      var before := Pairs(pieces[..|pieces| - 1], urlDecode);
      var last := PairOf(urlDecode(pieces[|pieces| - 1]));
      if last.Some? then before + [last.value] else before
  }

  /** The dictionary that storing the pairs one after another gives. */
  function Build(pairs: seq<(string, string)>): QueryDictionary {
    if pairs == [] then map[]
    else
      var (k, v) := pairs[|pairs| - 1];
      Store(Build(pairs[..|pairs| - 1]), k, v)
  }

  /** Storing one more pair extends the dictionary of the pairs before it. */
  lemma BuildAppend(pairs: seq<(string, string)>, key: string, value: string)
    ensures Build(pairs + [(key, value)]) == Store(Build(pairs), key, value)
  {
    assert (pairs + [(key, value)])[..|pairs|] == pairs;
  }

  /** One more piece contributes its pair, if it yields one, after the pairs before it. */
  lemma PairsAppend(pieces: seq<string>, urlDecode: string -> string, i: nat)
    requires i < |pieces|
    ensures var p := PairOf(urlDecode(pieces[i]));
            Pairs(pieces[..i + 1], urlDecode) ==
              if p.Some? then Pairs(pieces[..i], urlDecode) + [p.value] else Pairs(pieces[..i], urlDecode)
  {
    assert pieces[..i + 1][..i] == pieces[..i];
  }

  /** The dictionary after one more piece: that piece's pair stored, if it yields one. */
  lemma BuildPiecesAppend(pieces: seq<string>, urlDecode: string -> string, i: nat)
    requires i < |pieces|
    ensures var kv := PairOf(urlDecode(pieces[i]));
            Build(Pairs(pieces[..i + 1], urlDecode)) ==
              if kv.Some? then Store(Build(Pairs(pieces[..i], urlDecode)), kv.value.0, kv.value.1)
              else Build(Pairs(pieces[..i], urlDecode))
  {
    PairsAppend(pieces, urlDecode, i);
    var ps := Pairs(pieces[..i], urlDecode);
    var kv := PairOf(urlDecode(pieces[i]));
    if kv.Some? {
      assert Pairs(pieces[..i + 1], urlDecode) == ps + [kv.value];
      BuildAppend(ps, kv.value.0, kv.value.1);
    }
  }

  /** `GetDictionaryFromUrlQuery`: split on `&`, decode each piece, keep the pieces that hold a
      key and an `=`, and store them in order. */
  method GetDictionaryFromUrlQuery(urlEncoded: string, urlDecode: string -> string)
    returns (dic: QueryDictionary)
    ensures dic == Build(Pairs(Split(urlEncoded, '&'), urlDecode))
  {
    var pieces := Split(urlEncoded, '&');
    dic := map[];
    var i := 0;
    while i < |pieces|
      invariant 0 <= i <= |pieces|
      invariant dic == Build(Pairs(pieces[..i], urlDecode))
    {
      var decoded := urlDecode(pieces[i]);
      var equalsPos := IndexOf(decoded, '=');
      BuildPiecesAppend(pieces, urlDecode, i);
      if equalsPos > 0 {
        var key := decoded[..equalsPos];
        var value := decoded[equalsPos + 1..];
        dic := Store(dic, key, value);
      }
      i := i + 1;
    }
    assert pieces[..|pieces|] == pieces;
  }

  /** A pair comes out of the pieces exactly when some piece decodes to a non-empty key free of
      `=`, an `=`, and the value. */
  lemma {:induction false} PairsExactly(pieces: seq<string>, urlDecode: string -> string, key: string, value: string)
    ensures (key, value) in Pairs(pieces, urlDecode) <==>
              key != "" && '=' !in key &&
              exists i :: 0 <= i < |pieces| && urlDecode(pieces[i]) == key + "=" + value
  {
    if pieces != [] {
      var init := pieces[..|pieces| - 1];
      var d := urlDecode(pieces[|pieces| - 1]);
      PairsExactly(init, urlDecode, key, value);
      var target := key + "=" + value;
      if key != "" && '=' !in key && d == target {
        IndexOfAfterPrefix(key, '=', value);
        assert d[..|key|] == key && d[|key| + 1..] == value;
      }
      if PairOf(d) == Some((key, value)) {
        var eq := IndexOf(d, '=');
        assert d == d[..eq] + [d[eq]] + d[eq + 1..];
      }
      if exists i :: 0 <= i < |pieces| && urlDecode(pieces[i]) == target {
        var i :| 0 <= i < |pieces| && urlDecode(pieces[i]) == target;
        if i < |pieces| - 1 {
          assert init[i] == pieces[i];
        }
      }
      forall i | 0 <= i < |init| ensures init[i] == pieces[i] { }
    }
  }

  /** Looking a key up, in any spelling: the stored value of the last pair whose key folds to
      the same text. */
  function LastValue(pairs: seq<(string, string)>, key: string): (r: Option<string>)
    ensures r == None <==> forall i :: 0 <= i < |pairs| ==> Fold(pairs[i].0) != Fold(key)
  {
    if pairs == [] then None
    else if Fold(pairs[|pairs| - 1].0) == Fold(key) then Some(pairs[|pairs| - 1].1)
    else
      assert forall i :: 0 <= i < |pairs| - 1 ==> pairs[i] == pairs[..|pairs| - 1][i];
      LastValue(pairs[..|pairs| - 1], key)
  }

  /** The spelling of the first pair whose key folds to the same text. */
  function FirstKey(pairs: seq<(string, string)>, key: string): (r: Option<string>)
    ensures r == None <==> forall i :: 0 <= i < |pairs| ==> Fold(pairs[i].0) != Fold(key)
    ensures r.Some? ==> Fold(r.value) == Fold(key)
  {
    if pairs == [] then None
    else if Fold(pairs[0].0) == Fold(key) then Some(pairs[0].0)
    else
      assert forall i :: 1 <= i < |pairs| ==> pairs[i] == pairs[1..][i - 1];
      FirstKey(pairs[1..], key)
  }

  lemma {:induction false} FirstKeyAppend(pairs: seq<(string, string)>, p: (string, string), key: string)
    ensures FirstKey(pairs + [p], key) ==
              if FirstKey(pairs, key).Some? then FirstKey(pairs, key)
              else if Fold(p.0) == Fold(key) then Some(p.0) else None
  {
    if pairs != [] {
      assert (pairs + [p])[1..] == pairs[1..] + [p];
      FirstKeyAppend(pairs[1..], p, key);
    } else {
      assert [] + [p] == [p];
    }
  }

  /** A key is in the dictionary exactly when some pair has it in some spelling; its entry keeps
      the first spelling and the last value: later duplicates overwrite earlier ones. */
  lemma {:induction false} BuildEntries(pairs: seq<(string, string)>, key: string)
    ensures Fold(key) in Build(pairs) <==> LastValue(pairs, key).Some?
    ensures Fold(key) in Build(pairs) ==>
              Build(pairs)[Fold(key)] == Entry(FirstKey(pairs, key).value, LastValue(pairs, key).value)
  {
    if pairs != [] {
      var init := pairs[..|pairs| - 1];
      var p := pairs[|pairs| - 1];
      BuildEntries(init, key);
      FirstKeyAppend(init, p, key);
      assert init + [p] == pairs;
      if Fold(p.0) == Fold(key) && Fold(key) !in Build(init) {
        assert FirstKey(init, key) == None;
      }
    }
  }
}
