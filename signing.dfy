/** Request parameters and their signature: the values a request carries,
    `_list_to_str`, the canonical string (values in ascending key order), and
    the signed parameter set `_prepare_params` produces. */
module Signing {
  import opened Strings

  /** A request parameter value: the endpoints pass strings and integers. */
  datatype Value = Str(s: string) | Int(i: int)

  /** `str(value)`: a string stands for itself, an integer for its decimal form. */
  function ToStr(v: Value): (s: string)
  {
    match v
    case Str(s) => s
    case Int(i) => IntToDecimal(i)
  }

  /** `map(str, items)`. */
  function Rendered(items: seq<Value>): (r: seq<string>)
    ensures |r| == |items|
    ensures forall i :: 0 <= i < |items| ==> r[i] == ToStr(items[i])
  {
    if |items| == 0 then [] else [ToStr(items[0])] + Rendered(items[1..])
  }

  /** `_list_to_str`: the string forms joined by single commas. An empty list
      gives the empty string and a one-element list that element's string. */
  function ListToStr(items: seq<Value>): (s: string)
    ensures |items| == 0 ==> s == ""
    ensures |items| == 1 ==> s == ToStr(items[0])
  {
    Join(Rendered(items), ',')
  }

  /** When no element's string holds a comma, splitting the list string on
      commas recovers the element strings in order. */
  lemma ListToStrSplit(items: seq<Value>)
    requires |items| >= 1
    requires forall i :: 0 <= i < |items| ==> ',' !in ToStr(items[i])
    ensures Split(ListToStr(items), ',') == Rendered(items)
  {
    SplitJoin(Rendered(items), ',');
  }

  /** A list of integers always splits back into the integers. */
  lemma ListToStrSplitInts(items: seq<Value>)
    requires |items| >= 1
    requires forall i :: 0 <= i < |items| ==> items[i].Int?
    ensures |Split(ListToStr(items), ',')| == |items|
    ensures forall i :: 0 <= i < |items| ==> ParseInt(Split(ListToStr(items), ',')[i]) == Some(items[i].i)
  {
    forall i | 0 <= i < |items| ensures ',' !in ToStr(items[i]) {
      IntToDecimalHasNoComma(items[i].i);
    }
    ListToStrSplit(items);
    forall i | 0 <= i < |items| ensures ParseInt(Rendered(items)[i]) == Some(items[i].i) {
      IntToDecimalRoundTrip(items[i].i);
    }
  }

  /** An argument that may be one value or a list of values (`state` of
      `get_status`, `phone` of `send_sms`). */
  datatype Arg = Single(value: Value) | Many(items: seq<Value>)

  /** The `isinstance(arg, list)` branch: a list goes through `_list_to_str`,
      a single value is passed on unchanged. */
  function Flatten(a: Arg): (v: Value)
  {
    match a
    case Single(x) => x
    case Many(items) => Str(ListToStr(items))
  }

  /** A list argument reaches the request as one string that splits back into
      its elements; a single value reaches it unchanged. */
  lemma FlattenSpec(a: Arg)
    ensures a.Single? ==> Flatten(a) == a.value
    ensures a.Many? && |a.items| >= 1 && (forall i :: 0 <= i < |a.items| ==> ',' !in ToStr(a.items[i]))
            ==> Flatten(a).Str? && Split(Flatten(a).s, ',') == Rendered(a.items)
    ensures a.Many? && |a.items| == 0 ==> Flatten(a) == Str("")
  {
    if a.Many? && |a.items| >= 1 && (forall i :: 0 <= i < |a.items| ==> ',' !in ToStr(a.items[i])) {
      ListToStrSplit(a.items);
    }
  }

  /** Two status IDs "A" and "B" in a list go out as the one string "A,B". */
  lemma StatusAB(items: seq<Value>)
    requires items == [Str("A"), Str("B")]
    ensures ListToStr(items) == "A,B"
    ensures Flatten(Many(items)) == Str("A,B")
  {
    var parts := Rendered(items);
    assert parts == ["A", "B"];
    assert parts[1..] == ["B"];
    assert Join(parts, ',') == "A" + [','] + "B";
  }

  // ---------------------------------------------------------------------------
  // Sorted keys
  // ---------------------------------------------------------------------------

  /** `k` is the first of `keys` in string order. */
  predicate IsLeast(k: string, keys: set<string>)
  {
    k in keys && forall x :: x in keys ==> AtMost(k, x)
  }

  lemma {:induction false} LeastExists(keys: set<string>)
    requires keys != {}
    ensures exists k :: IsLeast(k, keys)
    decreases keys
  {
    var x :| x in keys;
    if keys != {x} {
      LeastExists(keys - {x});
      var y :| IsLeast(y, keys - {x});
      AtMostTotal(x, y);
      if AtMost(x, y) {
        forall z | z in keys ensures AtMost(x, z) {
          if z != x { AtMostTransitive(x, y, z); } else { AtMostReflexive(x); }
        }
        assert IsLeast(x, keys);
      } else {
        assert IsLeast(y, keys);
      }
    } else {
      AtMostReflexive(x);
      assert IsLeast(x, keys);
    }
  }

  lemma LeastUnique(keys: set<string>)
    ensures forall a, b :: IsLeast(a, keys) && IsLeast(b, keys) ==> a == b
  {
    forall a, b | IsLeast(a, keys) && IsLeast(b, keys) ensures a == b {
      AtMostAntisymmetric(a, b);
    }
  }

  /** The first key of a non-empty key set. */
  function Least(keys: set<string>): (k: string)
    requires keys != {}
    ensures k in keys
  {
    LeastExists(keys);
    LeastUnique(keys);
    var k :| IsLeast(k, keys); k
  }

  lemma LeastIsLeast(keys: set<string>)
    requires keys != {}
    ensures IsLeast(Least(keys), keys)
  {
  }

  /** No key repeats and each is before the next. */
  predicate StrictlyAscending(ks: seq<string>)
  {
    forall i, j :: 0 <= i < j < |ks| ==> Before(ks[i], ks[j])
  }

  /** `sorted(keys)`: the first key, then the rest sorted. */
  function SortedKeys(keys: set<string>): (ks: seq<string>)
    ensures forall i :: 0 <= i < |ks| ==> ks[i] in keys
    decreases keys
  {
    if keys == {} then []
    else
      var k := Least(keys);
      [k] + SortedKeys(keys - {k})
  }

  /** `sorted` lists every key once, in strictly ascending order. */
  lemma {:induction false} SortedKeysSpec(keys: set<string>)
    ensures StrictlyAscending(SortedKeys(keys))
    ensures forall k :: k in SortedKeys(keys) <==> k in keys
    ensures |SortedKeys(keys)| == |keys|
    decreases keys
  {
    if keys != {} {
      var k := Least(keys);
      var rest := SortedKeys(keys - {k});
      SortedKeysSpec(keys - {k});
      LeastIsLeast(keys);
      var ks := [k] + rest;
      assert SortedKeys(keys) == ks;
      forall i, j | 0 <= i < j < |ks| ensures Before(ks[i], ks[j]) {
        if i == 0 {
          assert ks[j] == rest[j - 1] && ks[j] in keys - {k};
        } else {
          assert ks[i] == rest[i - 1] && ks[j] == rest[j - 1];
        }
      }
    }
  }

  lemma FirstIsMember(ys: seq<string>)
    requires |ys| > 0
    ensures ys[0] in ys
  {
  }

  /** Two ascending enumerations of the same keys are the same sequence: the
      order is fixed by the key names alone. */
  lemma {:induction false} AscendingUnique(xs: seq<string>, ys: seq<string>)
    requires StrictlyAscending(xs) && StrictlyAscending(ys)
    requires forall k :: k in xs <==> k in ys
    ensures xs == ys
    decreases |xs|
  {
    if |xs| == 0 {
      if |ys| > 0 {
        FirstIsMember(ys);
        assert false;
      }
    } else {
      assert xs[0] in ys;
      assert ys != [];
      assert ys[0] in xs;
      if xs[0] != ys[0] {
        var i :| 0 <= i < |xs| && xs[i] == ys[0];
        var j :| 0 <= j < |ys| && ys[j] == xs[0];
        assert Before(xs[0], ys[0]);
        assert Before(ys[0], xs[0]);
        AtMostAntisymmetric(xs[0], ys[0]);
        assert false;
      }
      forall k ensures k in xs[1..] <==> k in ys[1..] {
        if k in xs[1..] {
          var i :| 1 <= i < |xs| && xs[i] == k;
          assert k != xs[0];
          assert k in ys;
        }
        if k in ys[1..] {
          var j :| 1 <= j < |ys| && ys[j] == k;
          assert k != ys[0];
          assert k in xs;
        }
      }
      AscendingUnique(xs[1..], ys[1..]);
      assert xs == [xs[0]] + xs[1..] && ys == [ys[0]] + ys[1..];
    }
  }

  // ---------------------------------------------------------------------------
  // The canonical string
  // ---------------------------------------------------------------------------

  /** The string forms of `m`'s values at keys `ks`, concatenated without
      separators and without the key names. */
  function ValuesAt(m: map<string, Value>, ks: seq<string>): (s: string)
    requires forall i :: 0 <= i < |ks| ==> ks[i] in m
  {
    if |ks| == 0 then "" else ToStr(m[ks[0]]) + ValuesAt(m, ks[1..])
  }

  /** `''.join(str(m[k]) for k in sorted(m))`. */
  function Canonical(m: map<string, Value>): (s: string)
  {
    ValuesAt(m, SortedKeys(m.Keys))
  }

  /** The canonical string is the concatenation of the values along ANY
      strictly ascending enumeration of the map's keys. */
  lemma CanonicalAlong(m: map<string, Value>, ks: seq<string>)
    requires StrictlyAscending(ks)
    requires forall k :: k in ks <==> k in m
    ensures Canonical(m) == ValuesAt(m, ks)
  {
    SortedKeysSpec(m.Keys);
    AscendingUnique(SortedKeys(m.Keys), ks);
  }

  // ---------------------------------------------------------------------------
  // Signing
  // ---------------------------------------------------------------------------

  /** The keys the client writes into every request. */
  const SignedKeys: set<string> := {"login", "timestamp", "return", "signature"}

  /** The parameter set before the signature is added (lines 74-77), with a
      caller-supplied `signature` left out of it. */
  function Unsigned(params: map<string, Value>, login: string, timestamp: int): (u: map<string, Value>)
    ensures "signature" !in u
    ensures "login" in u && u["login"] == Str(login)
    ensures "timestamp" in u && u["timestamp"] == Int(timestamp)
    ensures "return" in u && u["return"] == Str("json")
    ensures forall k :: k in params && k !in SignedKeys ==> k in u && u[k] == params[k]
    ensures forall k :: k in u ==> k in params || k in SignedKeys
  {
    (params - {"signature"})["login" := Str(login)]["timestamp" := Int(timestamp)]["return" := Str("json")]
  }

  /** The signed set holds exactly the caller's keys and the four reserved ones. */
  lemma SignedDomain(params: map<string, Value>, login: string, apiKey: string, timestamp: int,
                     digest: string -> string)
    ensures forall k :: k in Signed(params, login, apiKey, timestamp, digest) <==> k in params || k in SignedKeys
  {
    var r := Signed(params, login, apiKey, timestamp, digest);
    forall k | k in params || k in SignedKeys ensures k in r {
      if k !in SignedKeys {
      } else if k == "signature" {
      } else {
        assert k == "login" || k == "timestamp" || k == "return";
      }
    }
  }

  /** Adds the signature to a parameter set that does not hold one yet: the
      digest of its canonical string followed by the secret key. */
  function WithSignature(u: map<string, Value>, apiKey: string, digest: string -> string): (r: map<string, Value>)
    requires "signature" !in u
    ensures "signature" in r && r - {"signature"} == u
    ensures r["signature"] == Str(digest(Canonical(u) + apiKey))
  {
    u["signature" := Str(digest(Canonical(u) + apiKey))]
  }

  /** The parameter set `_prepare_params` sends: the caller's parameters, the
      three reserved keys overriding whatever the caller gave under them, and
      the signature, the digest of the canonical string of everything else
      followed by the secret key. */
  function Signed(params: map<string, Value>, login: string, apiKey: string, timestamp: int,
                  digest: string -> string): (r: map<string, Value>)
    ensures "login" in r && r["login"] == Str(login)
    ensures "timestamp" in r && r["timestamp"] == Int(timestamp)
    ensures "return" in r && r["return"] == Str("json")
    ensures "signature" in r && r["signature"] == Str(digest(Canonical(r - {"signature"}) + apiKey))
    ensures forall k :: k in params && k !in SignedKeys ==> k in r && r[k] == params[k]
    ensures forall k :: k in r ==> k in params || k in SignedKeys
  {
    WithSignature(Unsigned(params, login, timestamp), apiKey, digest)
  }

  /** Lines 74-77 exactly as written: the caller's map is copied whole, a
      caller-supplied `signature` included. */
  function UnsignedAsWritten(params: map<string, Value>, login: string, timestamp: int): (u: map<string, Value>)
    ensures "signature" in u <==> "signature" in params
    ensures "signature" in params ==> u["signature"] == params["signature"]
    ensures "login" in u && u["login"] == Str(login)
    ensures "timestamp" in u && u["timestamp"] == Int(timestamp)
    ensures "return" in u && u["return"] == Str("json")
    ensures forall k :: k in params && k !in SignedKeys ==> k in u && u[k] == params[k]
    ensures forall k :: k in u ==> k in params || k in SignedKeys
  {
    params["login" := Str(login)]["timestamp" := Int(timestamp)]["return" := Str("json")]
  }

  /** Lines 74-79 exactly as written: the canonical string is taken over the
      copied map, so a caller-supplied `signature` is part of it before line
      79 overwrites it. */
  function SignedAsWritten(params: map<string, Value>, login: string, apiKey: string, timestamp: int,
                           digest: string -> string): (r: map<string, Value>)
    ensures "login" in r && r["login"] == Str(login)
    ensures "timestamp" in r && r["timestamp"] == Int(timestamp)
    ensures "return" in r && r["return"] == Str("json")
    ensures "signature" in r
    ensures r["signature"] == Str(digest(Canonical(UnsignedAsWritten(params, login, timestamp)) + apiKey))
    ensures forall k :: k in params && k !in SignedKeys ==> k in r && r[k] == params[k]
    ensures forall k :: k in r ==> k in params || k in SignedKeys
  {
    var u := UnsignedAsWritten(params, login, timestamp);
    u["signature" := Str(digest(Canonical(u) + apiKey))]
  }

  /** Without a caller-supplied `signature` the two agree: every endpoint
      builds its parameters without one. */
  lemma AsWrittenAgrees(params: map<string, Value>, login: string, apiKey: string, timestamp: int,
                        digest: string -> string)
    requires "signature" !in params
    ensures SignedAsWritten(params, login, apiKey, timestamp, digest) == Signed(params, login, apiKey, timestamp, digest)
  {
    assert params - {"signature"} == params;
  }

  /** With a caller-supplied `signature`, the signature the code computes is
      not the one a receiver recomputes from the other parameters: here the
      caller passes `signature = "x"`, the login and key are empty, the
      timestamp is 0 and the digest is the identity. */
  lemma AsWrittenSignatureNotReproducible(params: map<string, Value>, digest: string -> string)
    requires params == map["signature" := Str("x")]
    requires forall s :: digest(s) == s
    ensures var r := SignedAsWritten(params, "", "", 0, digest);
            r["signature"] != Str(digest(Canonical(r - {"signature"}) + ""))
  {
    SentSignature(params, digest);
    RecomputedCanonical(params, digest);
  }

  /** What the code sends in the example: the digest of "jsonx0". */
  lemma SentSignature(params: map<string, Value>, digest: string -> string)
    requires params == map["signature" := Str("x")]
    requires forall s :: digest(s) == s
    ensures SignedAsWritten(params, "", "", 0, digest)["signature"] == Str("jsonx0")
  {
    SignedOverCallerSignature(params);
    assert "jsonx0" + "" == "jsonx0";
  }

  /** The canonical string the code signs in the example includes the
      caller's "x". */
  lemma SignedOverCallerSignature(params: map<string, Value>)
    requires params == map["signature" := Str("x")]
    ensures Canonical(UnsignedAsWritten(params, "", 0)) == "jsonx0"
  {
    var u := UnsignedAsWritten(params, "", 0);
    assert u.Keys == {"login", "return", "signature", "timestamp"} by {
      forall k | k in u ensures k in {"login", "return", "signature", "timestamp"} {
        assert k in params || k in SignedKeys;
      }
    }
    CanonicalWithCallerSignature(u);
  }

  /** What a receiver recomputes in the example: the canonical string "json0". */
  lemma RecomputedCanonical(params: map<string, Value>, digest: string -> string)
    requires params == map["signature" := Str("x")]
    ensures Canonical(SignedAsWritten(params, "", "", 0, digest) - {"signature"}) == "json0"
  {
    var rest := SignedAsWritten(params, "", "", 0, digest) - {"signature"};
    assert rest.Keys == {"login", "return", "timestamp"} by {
      forall k | k in rest ensures k in {"login", "return", "timestamp"} {
        assert k in params || k in SignedKeys;
      }
    }
    CanonicalWithoutSignature(rest);
  }

  /** A map holding the reserved keys and a caller's `signature` canonicalises
      to login, "json", the caller's signature, then the timestamp. */
  lemma CanonicalWithSignatureKey(u: map<string, Value>, login: string, sig: string, timestamp: int)
    requires u.Keys == {"login", "return", "signature", "timestamp"}
    requires u["login"] == Str(login) && u["return"] == Str("json")
    requires u["signature"] == Str(sig) && u["timestamp"] == Int(timestamp)
    ensures Canonical(u) == login + "json" + sig + IntToDecimal(timestamp)
  {
    var ks := ["login", "return", "signature", "timestamp"];
    assert ValuesAt(u, ks) == login + "json" + sig + IntToDecimal(timestamp) by {
      assert ValuesAt(u, ks[3..]) == IntToDecimal(timestamp) + "";
      assert ValuesAt(u, ks[2..]) == sig + ValuesAt(u, ks[3..]);
      assert ValuesAt(u, ks[1..]) == "json" + ValuesAt(u, ks[2..]);
    }
    CanonicalAlong(u, ks);
  }

  lemma CanonicalWithCallerSignature(u: map<string, Value>)
    requires u.Keys == {"login", "return", "signature", "timestamp"}
    requires u["login"] == Str("") && u["return"] == Str("json") && u["signature"] == Str("x") && u["timestamp"] == Int(0)
    ensures Canonical(u) == "jsonx0"
  {
    CanonicalWithSignatureKey(u, "", "x", 0);
    assert IntToDecimal(0) == "0";
  }

  lemma CanonicalWithoutSignature(u: map<string, Value>)
    requires u.Keys == {"login", "return", "timestamp"}
    requires u["login"] == Str("") && u["return"] == Str("json") && u["timestamp"] == Int(0)
    ensures Canonical(u) == "json0"
  {
    CanonicalOfReserved(u, "", 0);
    assert IntToDecimal(0) == "0";
  }

  /** A call without parameters of its own signs `login + "json" +
      str(timestamp)` followed by the key. */
  lemma SignedWithoutParams(login: string, apiKey: string, timestamp: int, digest: string -> string)
    ensures Signed(map[], login, apiKey, timestamp, digest)["signature"]
            == Str(digest(login + "json" + IntToDecimal(timestamp) + apiKey))
  {
    var r := Signed(map[], login, apiKey, timestamp, digest);
    var u := r - {"signature"};
    assert u.Keys == {"login", "return", "timestamp"} by {
      forall k | k in u ensures k in {"login", "return", "timestamp"} {
        assert k in SignedKeys;
      }
    }
    CanonicalOfReserved(u, login, timestamp);
  }

  /** The client's own check: login "user", key "123", timestamp 1432359515
      and no further parameters sign "userjson1432359515" followed by the key. */
  lemma BalanceSignature(login: string, apiKey: string, timestamp: int, digest: string -> string)
    requires login == "user" && apiKey == "123" && timestamp == 1432359515
    ensures Signed(map[], login, apiKey, timestamp, digest)["signature"]
            == Str(digest("userjson1432359515" + "123"))
  {
    SignedWithoutParams(login, apiKey, timestamp, digest);
    TimestampDecimal(timestamp);
    BalanceCanonicalString(login, IntToDecimal(timestamp));
  }

  lemma BalanceCanonicalString(login: string, digits: string)
    requires login == "user" && digits == "1432359515"
    ensures login + "json" + digits == "userjson1432359515"
  {
    var c := login + "json" + digits;
    assert |c| == 18;
    forall i | 0 <= i < 18 ensures c[i] == "userjson1432359515"[i] {
    }
  }

  /** With no parameters of its own, a call signs its login, `json` and its
      timestamp, in that order. */
  lemma CanonicalOfReserved(u: map<string, Value>, login: string, timestamp: int)
    requires u.Keys == {"login", "return", "timestamp"}
    requires u["login"] == Str(login) && u["return"] == Str("json") && u["timestamp"] == Int(timestamp)
    ensures Canonical(u) == login + "json" + IntToDecimal(timestamp)
  {
    var ks := ["login", "return", "timestamp"];
    assert ValuesAt(u, ks) == login + "json" + IntToDecimal(timestamp) by {
      assert ValuesAt(u, ks[2..]) == IntToDecimal(timestamp) + "";
      assert ValuesAt(u, ks[1..]) == "json" + ValuesAt(u, ks[2..]);
    }
    CanonicalAlong(u, ks);
  }

  lemma TimestampDecimal(t: int)
    requires t == 1432359515
    ensures IntToDecimal(t) == "1432359515"
  {
    var n: nat := t;
    DecimalStep(n);
    DecimalStep(n / 10);
    DecimalStep(n / 100);
    DecimalStep(n / 1000);
    DecimalStep(n / 10000);
    DecimalStep(n / 100000);
    DecimalStep(n / 1000000);
    DecimalStep(n / 10000000);
    DecimalStep(n / 100000000);
  }

  /** One step of the decimal rendering: the last digit comes last. */
  lemma DecimalStep(n: nat)
    requires n >= 10
    ensures NatToDecimal(n) == NatToDecimal(n / 10) + [DigitChar(n % 10)]
  {
  }
}
