/**
 The reshaper of submit/src/data.py: it turns one OpenStreetMap element (its tag name,
 its attributes, its `tag` children and its `nd` children) into the nested dictionary
 that is written out as one JSON document.

 The dictionary is modelled with the value shapes it can actually hold: text, a
 sub-dictionary of text ("created", "address"), or a list ("pos", "node_refs").
 Python raises when an operation meets the wrong shape (a tag keyed "address" stored as
 text, then an `addr:` tag on the next pass); those exceptions are the `Err` results.
 */
module Reshape {
  import opened Wrappers
  import opened PyStrings
  import Corrections

  // ---------------------------------------------------------------------------
  // Values

  /** The Python exceptions the reshaper can raise. */
  datatype PyError = TypeError | IndexError | KeyError | AttributeError | ValueError

  datatype Result<T> = Ok(value: T) | Err(error: PyError)

  /** An element of a Python list: a float or a string. */
  datatype Item = Num(x: real) | Str(s: string)

  /** A value of the output dictionary. */
  datatype Value = Text(s: string) | Dict(entries: map<string, string>) | List(items: seq<Item>)

  /** The output dictionary, `node` in the source. */
  type Fields = map<string, Value>

  /**
   One parsed element: its tag name, its attributes in the order the attribute
   dictionary yields them, the (k, v) pairs of its `tag` children and the `ref`
   attributes of its `nd` children, both in document order.
   */
  datatype Element = Element(
    tag: string,
    attrib: seq<(string, string)>,
    tags: seq<(string, string)>,
    nds: seq<string>)

  /**
   The numeric conversions the source leaves to Python: `float(s)` (None when it
   raises ValueError) and `str(round(x, 2))`.
   */
  datatype Numerics = Numerics(parseFloat: string -> Option<real>, showRounded: real -> string)

  /** What shape_element returns: nothing for other elements, an exception, or the document. */
  datatype Shaped = Skipped | Failed(error: PyError) | Shaped(fields: Fields)

  // ---------------------------------------------------------------------------
  // Constants and key classes

  const Created: seq<string> := ["version", "changeset", "timestamp", "user", "uid"]

  /** The canonical key for the emergency-shelter evacuation capacity (ten thousands of people). */
  const ShelterPopulation: string := "应急避难场所疏散人口万人"

  /** The two keys with that meaning; both are stored under ShelterPopulation. */
  const ShelterKeys: seq<string> := ["应急避难场所疏散人数万人", ShelterPopulation]

  /** The evacuee headcount key, and the key its value in ten thousands is stored under. */
  const Evacuees: string := "疏散人数"
  const EvacueesTenThousands: string := "疏散人数（万）"

  /** The character class of `problemchars`. */
  predicate IsProblemChar(c: char) {
    c in "=+/&<>;'\"?%#$@,. \t\r\n"
  }

  /** `problemchars.match(k)`: the match is anchored, so only the first character is tested. */
  predicate ProblemKey(k: string) {
    k != [] && IsProblemChar(k[0])
  }

  predicate IsLowerChar(c: char) {
    'a' <= c <= 'z' || c == '_'
  }

  predicate AllLower(s: string) {
    forall i :: 0 <= i < |s| ==> IsLowerChar(s[i])
  }

  predicate LowerColonExact(s: string) {
    exists i :: 0 <= i < |s| && s[i] == ':' && AllLower(s[..i]) && AllLower(s[i + 1..])
  }

  /**
   `lower_colon.match(s)` for `^([a-z]|_)*:([a-z]|_)*$`: `$` also matches just before
   a final newline.
   */
  predicate LowerColon(s: string) {
    LowerColonExact(s) || (s != [] && s[|s| - 1] == '\n' && LowerColonExact(s[..|s| - 1]))
  }

  /** Only the first character decides a problem key: "a=b" is kept, "=ab" is skipped. */
  lemma ProblemKeyFirstChar(c: char, rest: string)
    ensures ProblemKey([c] + rest) <==> IsProblemChar(c)
  {
    assert ([c] + rest)[0] == c;
  }

  /**
   `$` before a final newline: a key part followed by one newline matches `lower_colon`
   exactly when the part without it does, and so does the part itself.
   */
  lemma LowerColonNewline(s: string)
    ensures LowerColon(s + "\n") <==> LowerColonExact(s)
    ensures LowerColonExact(s) ==> LowerColon(s)
  {
    var t := s + "\n";
    assert t[..|t| - 1] == s;
    forall i | 0 <= i < |t| && t[i] == ':' && AllLower(t[..i]) ensures !AllLower(t[i + 1..]) {
      assert t[|t| - 1] == '\n';
      assert t[i + 1..][|t| - i - 2] == '\n';
    }
  }

  /** `s.replace(',', '')` */
  function DropCommas(s: string): string {
    Keep(s, c => c != ',')
  }

  // ---------------------------------------------------------------------------
  // The dictionary operations, as the source performs them

  /** `if not key in node.keys(): node[key] = default` */
  function WithDefault(node: Fields, key: string, default: Value): (r: Fields)
    ensures key in r
  {
    if key in node then node else node[key := default]
  }

  /** `node[key][sub] = val`: only a dictionary supports item assignment with a string key. */
  function SetItem(node: Fields, key: string, sub: string, val: string): Result<Fields>
    requires key in node
  {
    match node[key]
    case Dict(d) => Ok(node[key := Dict(d[sub := val])])
    case _ => Err(TypeError)
  }

  /** `v[i]` for a small integer i. */
  function Index(v: Value, i: nat): (r: Result<Item>)
    ensures r.Ok? <==> (v.Text? && i < |v.s|) || (v.List? && i < |v.items|)
    ensures r.Err? ==> r.error == (if v.Dict? then KeyError else IndexError)
    ensures v.List? && r.Ok? ==> r.value == v.items[i]
  {
    match v
    case Text(s) => if i < |s| then Ok(Str([s[i]])) else Err(IndexError)
    case List(items) => if i < |items| then Ok(items[i]) else Err(IndexError)
    case Dict(_) => Err(KeyError)
  }

  /** process_toptags: one attribute (key, val) into the dictionary. */
  function TopTag(node: Fields, key: string, val: string, num: Numerics): Result<Fields> {
    if key in Created then
      SetItem(WithDefault(node, "created", Dict(map[])), "created", key, val)
    else if key == "lat" || key == "lon" then
      var node1 := WithDefault(node, "pos", List([Num(0.0), Num(0.0)]));
      var oldPos := node1["pos"];
      if key == "lat" then
        match num.parseFloat(val)
        case None => Err(ValueError)
        case Some(lat) =>
          (match Index(oldPos, 1)
           case Err(e) => Err(e)
           case Ok(second) => Ok(node1["pos" := List([Num(lat), second])]))
      else
        match Index(oldPos, 0)
        case Err(e) => Err(e)
        case Ok(first) =>
          (match num.parseFloat(val)
           case None => Err(ValueError)
           case Some(lon) => Ok(node1["pos" := List([first, Num(lon)])]))
    else
      Ok(node[key := Text(val)])
  }

  /** The value stored under `address` for the tag (k, v), or None when nothing is stored. */
  function AddressValue(k: string, v: string): Option<string> {
    if k == "addr:street" then Some(Corrections.CorrectedStreet(v))
    else if k == "addr:postcode" then Corrections.CorrectPostcode(v).0
    else Some(v)
  }

  /** The `addr:` branch of process_subtags for the tag (k, v). */
  function AddressStep(node: Fields, k: string, v: string): Result<Fields>
    requires StartsWith(k, "addr:")
  {
    var node1 := WithDefault(node, "address", Dict(map[]));
    var addrKey := k[5..];
    if LowerColon(addrKey) then Ok(node1)
    else
      match AddressValue(k, v)
      case None => Ok(node1)
      case Some(fixed) => SetItem(node1, "address", addrKey, fixed)
  }

  /** The evacuee-headcount branch: the first word without commas, in ten thousands. */
  function HeadcountStep(node: Fields, v: string, num: Numerics): Result<Fields> {
    var words := Words(v);
    if words == [] then Err(IndexError)
    else
      match num.parseFloat(DropCommas(words[0]))
      case None => Err(ValueError)
      case Some(count) => Ok(node[EvacueesTenThousands := Text(num.showRounded(count / 10000.0))])
  }

  /** One iteration of the loop of process_subtags, for the tag (k, v). */
  function TagStep(node: Fields, k: string, v: string, num: Numerics): Result<Fields> {
    if ProblemKey(k) then Ok(node)
    else if StartsWith(k, "addr:") then AddressStep(node, k, v)
    else if k == "fax" || k == "phone" then Ok(node[k := Text(Corrections.CorrectNumber(v).0)])
    else if k in ShelterKeys then Ok(node[ShelterPopulation := Text(v)])
    else if k == Evacuees then HeadcountStep(node, v, num)
    else Ok(node[k := Text(v)])
  }

  /** process_subtags: the tags, in order, into the dictionary. */
  function Subtags(node: Fields, tags: seq<(string, string)>, num: Numerics): Result<Fields> {
    if tags == [] then Ok(node)
    else
      match Subtags(node, tags[..|tags| - 1], num)
      case Err(e) => Err(e)
      case Ok(n) => TagStep(n, tags[|tags| - 1].0, tags[|tags| - 1].1, num)
  }

  /** One iteration of the attribute loop of shape_element: the type, the attribute, then all tags again. */
  function AttribStep(node: Fields, e: Element, key: string, val: string, num: Numerics): Result<Fields> {
    match TopTag(node["type" := Text(e.tag)], key, val, num)
    case Err(x) => Err(x)
    case Ok(n) => Subtags(n, e.tags, num)
  }

  /** The dictionary after the first n iterations of the attribute loop. */
  function AttribPass(e: Element, n: nat, num: Numerics): Result<Fields>
    requires n <= |e.attrib|
  {
    if n == 0 then Ok(map[])
    else
      match AttribPass(e, n - 1, num)
      case Err(x) => Err(x)
      case Ok(m) => AttribStep(m, e, e.attrib[n - 1].0, e.attrib[n - 1].1, num)
  }

  /** One iteration of the nd loop: append the reference to `node_refs`, created empty if missing. */
  function AppendRef(node: Fields, ref: string): Result<Fields> {
    var node1 := WithDefault(node, "node_refs", List([]));
    match node1["node_refs"]
    case List(items) => Ok(node1["node_refs" := List(items + [Str(ref)])])
    case _ => Err(AttributeError)
  }

  function NodeRefs(node: Fields, refs: seq<string>): Result<Fields> {
    if refs == [] then Ok(node)
    else
      match NodeRefs(node, refs[..|refs| - 1])
      case Err(x) => Err(x)
      case Ok(n) => AppendRef(n, refs[|refs| - 1])
  }

  /** shape_element, as a function of the element. */
  function Shape(e: Element, num: Numerics): Shaped {
    if e.tag != "node" && e.tag != "way" then Skipped
    else
      match AttribPass(e, |e.attrib|, num)
      case Err(x) => Failed(x)
      case Ok(m) =>
        (match NodeRefs(m, e.nds)
         case Err(x) => Failed(x)
         case Ok(m') => Shaped(m'))
  }

  // ---------------------------------------------------------------------------
  // The imperative reshaper

  /** The street and postcode correctors as process_subtags calls them. */
  method FixAddress(k: string, v: string) returns (fixed: Option<string>)
    ensures fixed == AddressValue(k, v)
  {
    if k == "addr:street" {
      var name, change := Corrections.CorrectStreetType(v);
      fixed := Some(name);
    } else if k == "addr:postcode" {
      var (code, change) := Corrections.CorrectPostcode(v);
      fixed := code;
    } else {
      fixed := Some(v);
    }
  }

  /** A call that either raised `err` or left the dictionary as `r` says. */
  ghost predicate Outcome(r: Result<Fields>, err: Option<PyError>, fields: Fields) {
    match r
    case Ok(m) => err == None && fields == m
    case Err(x) => err == Some(x)
  }

  /** The dictionary that shape_element builds and the helpers update in place. */
  class Node {
    var fields: Fields

    constructor ()
      ensures fields == map[]
    {
      fields := map[];
    }

    /** process_toptags */
    method ProcessTopTags(key: string, val: string, num: Numerics) returns (err: Option<PyError>)
      modifies this
      ensures Outcome(TopTag(old(fields), key, val, num), err, fields)
    {
      if key in Created {
        if "created" !in fields {
          fields := fields["created" := Dict(map[])];
        }
        match fields["created"] {
          case Dict(d) =>
            fields := fields["created" := Dict(d[key := val])];
          case _ =>
            return Some(TypeError);
        }
      } else if key == "lat" || key == "lon" {
        if "pos" !in fields {
          fields := fields["pos" := List([Num(0.0), Num(0.0)])];
        }
        var oldPos := fields["pos"];
        var newPos: Value;
        if key == "lat" {
          var lat := num.parseFloat(val);
          if lat.None? {
            return Some(ValueError);
          }
          var second := Index(oldPos, 1);
          if second.Err? {
            return Some(second.error);
          }
          newPos := List([Num(lat.value), second.value]);
        } else {
          var first := Index(oldPos, 0);
          if first.Err? {
            return Some(first.error);
          }
          var lon := num.parseFloat(val);
          if lon.None? {
            return Some(ValueError);
          }
          newPos := List([first.value, Num(lon.value)]);
        }
        fields := fields["pos" := newPos];
      } else {
        fields := fields[key := Text(val)];
      }
      return None;
    }

    /** The `addr:` branch of process_subtags. */
    method ApplyAddress(tagKey: string, tagVal: string) returns (err: Option<PyError>)
      requires StartsWith(tagKey, "addr:")
      modifies this
      ensures Outcome(AddressStep(old(fields), tagKey, tagVal), err, fields)
    {
      if "address" !in fields {
        fields := fields["address" := Dict(map[])];
      }
      err := None;
      var addrKey := tagKey[5..];
      if !LowerColon(addrKey) {
        var fixed := FixAddress(tagKey, tagVal);
        if fixed.Some? {
          err := StoreAddress(addrKey, fixed.value);
        }
      }
    }

    /** `node['address'][addrKey] = fixed` */
    method StoreAddress(addrKey: string, fixed: string) returns (err: Option<PyError>)
      requires "address" in fields
      modifies this
      ensures Outcome(SetItem(old(fields), "address", addrKey, fixed), err, fields)
    {
      match fields["address"] {
        case Dict(d) =>
          fields := fields["address" := Dict(d[addrKey := fixed])];
          err := None;
        case _ =>
          err := Some(TypeError);
      }
    }

    /** The evacuee-headcount branch of process_subtags. */
    method ApplyHeadcount(tagVal: string, num: Numerics) returns (err: Option<PyError>)
      modifies this
      ensures Outcome(HeadcountStep(old(fields), tagVal, num), err, fields)
    {
      var words := Words(tagVal);
      if words == [] {
        return Some(IndexError);
      }
      var count := num.parseFloat(DropCommas(words[0]));
      if count.None? {
        return Some(ValueError);
      }
      fields := fields[EvacueesTenThousands := Text(num.showRounded(count.value / 10000.0))];
      return None;
    }

    /** One iteration of the loop of process_subtags: the tag (tagKey, tagVal). */
    method ApplyTag(tagKey: string, tagVal: string, num: Numerics) returns (err: Option<PyError>)
      modifies this
      ensures Outcome(TagStep(old(fields), tagKey, tagVal, num), err, fields)
    {
      err := None;
      if ProblemKey(tagKey) {
        return;
      } else if StartsWith(tagKey, "addr:") {
        err := ApplyAddress(tagKey, tagVal);
      } else if tagKey == "fax" || tagKey == "phone" {
        var (fixedNum, change) := Corrections.CorrectNumber(tagVal);
        fields := fields[tagKey := Text(fixedNum)];
      } else if tagKey in ShelterKeys {
        fields := fields[ShelterPopulation := Text(tagVal)];
      } else if tagKey == Evacuees {
        err := ApplyHeadcount(tagVal, num);
      } else {
        fields := fields[tagKey := Text(tagVal)];
      }
    }

    /** process_subtags */
    method ProcessSubtags(tags: seq<(string, string)>, num: Numerics) returns (err: Option<PyError>)
      modifies this
      ensures Outcome(Subtags(old(fields), tags, num), err, fields)
    {
      for i := 0 to |tags|
        invariant Subtags(old(fields), tags[..i], num) == Ok(fields)
      {
        assert tags[..i + 1][..i] == tags[..i];
        err := ApplyTag(tags[i].0, tags[i].1, num);
        if err.Some? {
          SubtagsFailed(old(fields), tags, i + 1, num);
          return;
        }
      }
      assert tags[..|tags|] == tags;
      return None;
    }

    /** One iteration of the attribute loop of shape_element: the type, the attribute, then all tags. */
    method ApplyAttribute(e: Element, key: string, val: string, num: Numerics) returns (err: Option<PyError>)
      modifies this
      ensures Outcome(AttribStep(old(fields), e, key, val, num), err, fields)
    {
      fields := fields["type" := Text(e.tag)];
      err := ProcessTopTags(key, val, num);
      if err == None {
        err := ProcessSubtags(e.tags, num);
      }
    }

    /** One iteration of the nd loop of shape_element. */
    method AppendNodeRef(ref: string) returns (err: Option<PyError>)
      modifies this
      ensures Outcome(AppendRef(old(fields), ref), err, fields)
    {
      if "node_refs" !in fields {
        fields := fields["node_refs" := List([])];
      }
      match fields["node_refs"] {
        case List(items) =>
          fields := fields["node_refs" := List(items + [Str(ref)])];
          err := None;
        case _ =>
          err := Some(AttributeError);
      }
    }

    /** The attribute loop of shape_element, starting from an empty dictionary. */
    method ApplyAttributes(e: Element, num: Numerics) returns (err: Option<PyError>)
      requires fields == map[]
      modifies this
      ensures Outcome(AttribPass(e, |e.attrib|, num), err, fields)
    {
      for i := 0 to |e.attrib|
        invariant AttribPass(e, i, num) == Ok(fields)
      {
        err := ApplyAttribute(e, e.attrib[i].0, e.attrib[i].1, num);
        if err.Some? {
          AttribFailed(e, i + 1, num);
          return;
        }
      }
      err := None;
    }

    /** The nd loop of shape_element. */
    method AppendNodeRefs(refs: seq<string>) returns (err: Option<PyError>)
      modifies this
      ensures Outcome(NodeRefs(old(fields), refs), err, fields)
    {
      for j := 0 to |refs|
        invariant NodeRefs(old(fields), refs[..j]) == Ok(fields)
      {
        assert refs[..j + 1][..j] == refs[..j];
        err := AppendNodeRef(refs[j]);
        if err.Some? {
          NodeRefsFailed(old(fields), refs, j + 1);
          return;
        }
      }
      assert refs[..|refs|] == refs;
      err := None;
    }
  }

  /** shape_element */
  method ShapeElement(e: Element, num: Numerics) returns (r: Shaped)
    ensures r == Shape(e, num)
    ensures r == Skipped <==> e.tag != "node" && e.tag != "way"
  {
    if e.tag != "node" && e.tag != "way" {
      return Skipped;
    }
    var node := new Node();
    var err := node.ApplyAttributes(e, num);
    if err.Some? {
      return Failed(err.value);
    }
    err := node.AppendNodeRefs(e.nds);
    if err.Some? {
      return Failed(err.value);
    }
    return Shaped(node.fields);
  }

  // ---------------------------------------------------------------------------
  // An exception ends the pass

  lemma {:induction false} SubtagsFailed(node: Fields, tags: seq<(string, string)>, i: nat, num: Numerics)
    requires i <= |tags| && Subtags(node, tags[..i], num).Err?
    ensures Subtags(node, tags, num) == Subtags(node, tags[..i], num)
    decreases |tags| - i
  {
    if i < |tags| {
      assert tags[..i + 1][..i] == tags[..i];
      SubtagsFailed(node, tags, i + 1, num);
    } else {
      assert tags[..i] == tags;
    }
  }

  lemma {:induction false} AttribFailed(e: Element, i: nat, num: Numerics)
    requires i <= |e.attrib| && AttribPass(e, i, num).Err?
    ensures AttribPass(e, |e.attrib|, num) == AttribPass(e, i, num)
    decreases |e.attrib| - i
  {
    if i < |e.attrib| {
      AttribFailed(e, i + 1, num);
    }
  }

  lemma {:induction false} NodeRefsFailed(node: Fields, refs: seq<string>, i: nat)
    requires i <= |refs| && NodeRefs(node, refs[..i]).Err?
    ensures NodeRefs(node, refs) == NodeRefs(node, refs[..i])
    decreases |refs| - i
  {
    if i < |refs| {
      assert refs[..i + 1][..i] == refs[..i];
      NodeRefsFailed(node, refs, i + 1);
    } else {
      assert refs[..i] == refs;
    }
  }

  // ---------------------------------------------------------------------------
  // Which keys each step writes

  /** The key x is present in n exactly when in m, with the same value. */
  ghost predicate Same(n: Fields, m: Fields, x: string) {
    (x in n <==> x in m) && (x in n ==> n[x] == m[x])
  }

  /** No tag is keyed x and no branch of process_subtags writes x under another key. */
  ghost predicate Untouched(x: string, tags: seq<(string, string)>) {
    x != "address" && x != ShelterPopulation && x != EvacueesTenThousands &&
    forall i :: 0 <= i < |tags| ==> tags[i].0 != x
  }

  /** process_toptags writes only `created`, `pos` or the attribute's own key. */
  lemma TopTagFrame(n: Fields, key: string, val: string, num: Numerics)
    requires TopTag(n, key, val, num).Ok?
    ensures forall x :: x != key && x != "created" && x != "pos" ==> Same(n, TopTag(n, key, val, num).value, x)
  {
  }

  /** A step of process_subtags writes only the tag's key, `address` or one of the two renamed keys. */
  lemma TagStepFrame(n: Fields, k: string, v: string, num: Numerics)
    requires TagStep(n, k, v, num).Ok?
    ensures forall x :: x != k && x != "address" && x != ShelterPopulation && x != EvacueesTenThousands ==>
              Same(n, TagStep(n, k, v, num).value, x)
  {
  }

  lemma {:induction false} SubtagsFrame(n: Fields, tags: seq<(string, string)>, num: Numerics, x: string)
    requires Subtags(n, tags, num).Ok? && Untouched(x, tags)
    ensures Same(n, Subtags(n, tags, num).value, x)
  {
    if tags != [] {
      var init := tags[..|tags| - 1];
      SubtagsFrame(n, init, num, x);
      var last := tags[|tags| - 1];
      TagStepFrame(Subtags(n, init, num).value, last.0, last.1, num);
    }
  }

  lemma {:induction false} NodeRefsFrame(n: Fields, refs: seq<string>, x: string)
    requires NodeRefs(n, refs).Ok? && x != "node_refs"
    ensures Same(n, NodeRefs(n, refs).value, x)
  {
    if refs != [] {
      NodeRefsFrame(n, refs[..|refs| - 1], x);
    }
  }

  /** One pass of the attribute loop writes only `type`, `created`, `pos`, the attribute's key and what the tags write. */
  lemma AttribStepFrame(n: Fields, e: Element, key: string, val: string, num: Numerics, x: string)
    requires AttribStep(n, e, key, val, num).Ok?
    requires x != "type" && x != "created" && x != "pos" && x != key && Untouched(x, e.tags)
    ensures Same(n, AttribStep(n, e, key, val, num).value, x)
  {
    var typed := n["type" := Text(e.tag)];
    TopTagFrame(typed, key, val, num);
    SubtagsFrame(TopTag(typed, key, val, num).value, e.tags, num, x);
  }

  /** A key nothing writes is absent after any number of passes of the attribute loop. */
  lemma {:induction false} AttribPassAbsent(e: Element, n: nat, num: Numerics, x: string)
    requires n <= |e.attrib| && AttribPass(e, n, num).Ok?
    requires x != "type" && x != "created" && x != "pos" && Untouched(x, e.tags)
    requires forall i :: 0 <= i < n ==> e.attrib[i].0 != x
    ensures x !in AttribPass(e, n, num).value
  {
    if n > 0 {
      AttribPassAbsent(e, n - 1, num, x);
      AttribStepFrame(AttribPass(e, n - 1, num).value, e, e.attrib[n - 1].0, e.attrib[n - 1].1, num, x);
    }
  }

  // ---------------------------------------------------------------------------
  // process_toptags

  /** The metadata attributes go into `created` alone; a `created` that is not a dictionary raises TypeError. */
  lemma TopTagCreated(n: Fields, key: string, val: string, num: Numerics)
    requires key in Created
    ensures TopTag(n, key, val, num).Err? <==> "created" in n && !n["created"].Dict?
    ensures TopTag(n, key, val, num).Ok? ==>
              var m := TopTag(n, key, val, num).value;
              var before := if "created" in n then n["created"].entries else map[];
              m == n["created" := Dict(before[key := val])]
  {
  }

  /**
   `lat` fills the first slot and `lon` the second of a two-element `pos`, created as
   [0.0, 0.0]; an unparsable value raises ValueError.
   */
  lemma TopTagPosition(n: Fields, key: string, val: string, num: Numerics)
    requires key == "lat" || key == "lon"
    requires "pos" !in n || (n["pos"].List? && |n["pos"].items| == 2)
    ensures num.parseFloat(val).None? ==> TopTag(n, key, val, num) == Err(ValueError)
    ensures num.parseFloat(val).Some? ==>
              var before := if "pos" in n then n["pos"].items else [Num(0.0), Num(0.0)];
              var x := Num(num.parseFloat(val).value);
              TopTag(n, key, val, num) == Ok(n["pos" := List(if key == "lat" then [x, before[1]] else [before[0], x])])
  {
    var before := if "pos" in n then n["pos"].items else [Num(0.0), Num(0.0)];
    var n1 := WithDefault(n, "pos", List([Num(0.0), Num(0.0)]));
    assert n1["pos"] == List(before);
    assert Index(n1["pos"], 0) == Ok(before[0]) && Index(n1["pos"], 1) == Ok(before[1]);
    if num.parseFloat(val).Some? {
      var x := Num(num.parseFloat(val).value);
      var pos := List(if key == "lat" then [x, before[1]] else [before[0], x]);
      assert n1["pos" := pos] == n["pos" := pos];
    }
  }

  /** Every other attribute is stored as text under its own key. */
  lemma TopTagPlain(n: Fields, key: string, val: string, num: Numerics)
    requires key !in Created && key != "lat" && key != "lon"
    ensures TopTag(n, key, val, num) == Ok(n[key := Text(val)])
  {
  }

  // ---------------------------------------------------------------------------
  // process_subtags

  /** A key matching problemchars, on its first character, leaves the dictionary as it was. */
  lemma TagStepProblemKey(n: Fields, k: string, v: string, num: Numerics)
    requires ProblemKey(k)
    ensures TagStep(n, k, v, num) == Ok(n)
  {
  }

  /** A key none of the branches claims is stored as text under itself. */
  predicate PlainKey(k: string) {
    !ProblemKey(k) && !StartsWith(k, "addr:") && k != "fax" && k != "phone" && k !in ShelterKeys && k != Evacuees
  }

  lemma TagStepPlain(n: Fields, k: string, v: string, num: Numerics)
    requires PlainKey(k)
    ensures TagStep(n, k, v, num) == Ok(n[k := Text(v)])
  {
  }

  /** A compound address key such as `addr:street:name` adds an `address` dictionary if missing and nothing else. */
  lemma TagStepCompoundAddress(n: Fields, k: string, v: string, num: Numerics)
    requires !ProblemKey(k) && StartsWith(k, "addr:") && LowerColon(k[5..])
    ensures TagStep(n, k, v, num) == Ok(if "address" in n then n else n["address" := Dict(map[])])
  {
  }

  /**
   A simple address key such as `addr:street` stores the corrector's value under the key
   without its `addr:` prefix, in an `address` dictionary created empty if missing; a `None`
   value stores nothing. When `address` holds text or a list, storing raises TypeError.
   */
  lemma TagStepAddressStores(n: Fields, k: string, v: string, num: Numerics)
    requires StartsWith(k, "addr:") && !LowerColon(k[5..])
    ensures "address" !in n || n["address"].Dict? ==>
              var before := if "address" in n then n["address"].entries else map[];
              TagStep(n, k, v, num) ==
                Ok(n["address" := Dict(match AddressValue(k, v)
                                       case None => before
                                       case Some(fixed) => before[k[5..] := fixed])])
    ensures "address" in n && !n["address"].Dict? ==>
              TagStep(n, k, v, num) == (if AddressValue(k, v).None? then Ok(n) else Err(TypeError))
  {
    assert k[0] == 'a';
    assert !ProblemKey(k);
    assert TagStep(n, k, v, num) == AddressStep(n, k, v);
    var node1 := WithDefault(n, "address", Dict(map[]));
    if "address" !in n || n["address"].Dict? {
      var before := if "address" in n then n["address"].entries else map[];
      assert node1["address"] == Dict(before);
      assert node1 == n["address" := Dict(before)];
      match AddressValue(k, v)
      case None =>
      case Some(fixed) =>
        assert node1["address" := Dict(before[k[5..] := fixed])] == n["address" := Dict(before[k[5..] := fixed])];
    }
  }

  /** Fax and phone values are stored corrected: digits and commas only. */
  lemma TagStepNumber(n: Fields, k: string, v: string, num: Numerics)
    requires k == "fax" || k == "phone"
    ensures TagStep(n, k, v, num).Ok?
    ensures var m := TagStep(n, k, v, num).value;
            k in m && m[k].Text? && m[k].s == Corrections.CorrectNumber(v).0 &&
            forall i :: 0 <= i < |m[k].s| ==> IsDigit(m[k].s[i]) || m[k].s[i] == ','
  {
  }

  /** Both spellings of the shelter capacity key end up under the one canonical key. */
  lemma TagStepShelter(n: Fields, k: string, v: string, num: Numerics)
    requires k in ShelterKeys
    ensures TagStep(n, k, v, num) == Ok(n[ShelterPopulation := Text(v)])
  {
  }

  /** The headcount raises IndexError for a blank value and ValueError for an unparsable first word. */
  lemma TagStepHeadcount(n: Fields, v: string, num: Numerics)
    ensures Words(v) == [] ==> TagStep(n, Evacuees, v, num) == Err(IndexError)
    ensures Words(v) != [] && num.parseFloat(DropCommas(Words(v)[0])).None? ==>
              TagStep(n, Evacuees, v, num) == Err(ValueError)
    ensures Words(v) != [] && num.parseFloat(DropCommas(Words(v)[0])).Some? ==>
              var count := num.parseFloat(DropCommas(Words(v)[0])).value;
              TagStep(n, Evacuees, v, num) == Ok(n[EvacueesTenThousands := Text(num.showRounded(count / 10000.0))])
  {
    assert !ProblemKey(Evacuees) && !StartsWith(Evacuees, "addr:");
  }

  // ---------------------------------------------------------------------------
  // shape_element

  /** The references as list items, in order. */
  function RefItems(refs: seq<string>): (items: seq<Item>)
    ensures |items| == |refs| && forall i :: 0 <= i < |refs| ==> items[i] == Str(refs[i])
  {
    seq(|refs|, i requires 0 <= i < |refs| => Str(refs[i]))
  }

  /** With no `node_refs` yet, the nd loop stores exactly the references in document order, and only when there is one. */
  lemma {:induction false} NodeRefsCollects(n: Fields, refs: seq<string>)
    requires "node_refs" !in n
    ensures NodeRefs(n, refs) == Ok(if refs == [] then n else n["node_refs" := List(RefItems(refs))])
  {
    if refs != [] {
      var init := refs[..|refs| - 1];
      NodeRefsCollects(n, init);
      var last := refs[|refs| - 1];
      if init == [] {
        assert RefItems(refs) == [] + [Str(last)];
        assert n["node_refs" := List([])]["node_refs" := List([] + [Str(last)])]
            == n["node_refs" := List(RefItems(refs))];
      } else {
        assert RefItems(init) + [Str(last)] == RefItems(refs);
        assert n["node_refs" := List(RefItems(init))]["node_refs" := List(RefItems(refs))]
            == n["node_refs" := List(RefItems(refs))];
      }
    }
  }

  /**
   An element without attributes never enters the attribute loop: it gets no `type`
   and none of its tags, only its node references.
   */
  lemma ShapeWithoutAttributes(e: Element, num: Numerics)
    requires e.tag == "node" || e.tag == "way"
    requires e.attrib == []
    ensures Shape(e, num) == Shaped(if e.nds == [] then map[] else map["node_refs" := List(RefItems(e.nds))])
  {
    NodeRefsCollects(map[], e.nds);
  }

  /**
   When neither an attribute nor a tag is keyed `node_refs`, the nd loop cannot fail and
   `node_refs` lists the references in document order, present exactly when there is one.
   */
  lemma ShapeNodeRefs(e: Element, num: Numerics)
    requires e.tag == "node" || e.tag == "way"
    requires forall i :: 0 <= i < |e.attrib| ==> e.attrib[i].0 != "node_refs"
    requires forall i :: 0 <= i < |e.tags| ==> e.tags[i].0 != "node_refs"
    ensures Shape(e, num).Failed? <==> AttribPass(e, |e.attrib|, num).Err?
    ensures Shape(e, num).Shaped? ==>
              var m := Shape(e, num).fields;
              ("node_refs" in m <==> e.nds != []) &&
              (e.nds != [] ==> m["node_refs"] == List(RefItems(e.nds)))
  {
    if AttribPass(e, |e.attrib|, num).Ok? {
      AttribPassAbsent(e, |e.attrib|, num, "node_refs");
      NodeRefsCollects(AttribPass(e, |e.attrib|, num).value, e.nds);
    }
  }

  /** The document holds, under key x, what the attribute loop left there. */
  lemma ShapeKeepsAttribPass(e: Element, num: Numerics, x: string)
    requires Shape(e, num).Shaped? && x != "node_refs"
    ensures AttribPass(e, |e.attrib|, num).Ok?
    ensures Same(AttribPass(e, |e.attrib|, num).value, Shape(e, num).fields, x)
  {
    NodeRefsFrame(AttribPass(e, |e.attrib|, num).value, e.nds, x);
  }

  /**
   Because process_subtags runs again after every attribute, the last tag decides its
   key: a plain last tag ends up stored under its key even when that key is `type` or an
   attribute's.
   */
  lemma ShapeLastTagWins(e: Element, num: Numerics)
    requires Shape(e, num).Shaped? && e.attrib != [] && e.tags != []
    requires PlainKey(e.tags[|e.tags| - 1].0) && e.tags[|e.tags| - 1].0 != "node_refs"
    ensures var (k, v) := e.tags[|e.tags| - 1];
            k in Shape(e, num).fields && Shape(e, num).fields[k] == Text(v)
  {
    var (k, v) := e.tags[|e.tags| - 1];
    ShapeKeepsAttribPass(e, num, k);
    var n := |e.attrib|;
    var prev := AttribPass(e, n - 1, num).value;
    var topped := TopTag(prev["type" := Text(e.tag)], e.attrib[n - 1].0, e.attrib[n - 1].1, num).value;
    var before := Subtags(topped, e.tags[..|e.tags| - 1], num).value;
    TagStepPlain(before, k, v, num);
  }

  /**
   The last tag also decides its address entry: a simple `addr:` last tag whose corrector
   gives a value leaves that value in `address` under the key without its prefix.
   */
  lemma ShapeLastAddressWins(e: Element, num: Numerics)
    requires Shape(e, num).Shaped? && e.attrib != [] && e.tags != []
    requires var (k, v) := e.tags[|e.tags| - 1];
             StartsWith(k, "addr:") && !LowerColon(k[5..]) && AddressValue(k, v).Some?
    ensures var (k, v) := e.tags[|e.tags| - 1];
            var m := Shape(e, num).fields;
            "address" in m && m["address"].Dict? && k[5..] in m["address"].entries &&
            m["address"].entries[k[5..]] == AddressValue(k, v).value
  {
    var (k, v) := e.tags[|e.tags| - 1];
    ShapeKeepsAttribPass(e, num, "address");
    var n := |e.attrib|;
    var prev := AttribPass(e, n - 1, num).value;
    var topped := TopTag(prev["type" := Text(e.tag)], e.attrib[n - 1].0, e.attrib[n - 1].1, num).value;
    var before := Subtags(topped, e.tags[..|e.tags| - 1], num).value;
    TagStepAddressStores(before, k, v, num);
  }

  /** When no attribute and no tag is keyed `type`, the document's type is the element's tag name. */
  lemma ShapeType(e: Element, num: Numerics)
    requires Shape(e, num).Shaped? && e.attrib != []
    requires forall i :: 0 <= i < |e.attrib| ==> e.attrib[i].0 != "type"
    requires Untouched("type", e.tags)
    ensures "type" in Shape(e, num).fields && Shape(e, num).fields["type"] == Text(e.tag)
  {
    ShapeKeepsAttribPass(e, num, "type");
    var n := |e.attrib|;
    var typed := AttribPass(e, n - 1, num).value["type" := Text(e.tag)];
    var (key, val) := e.attrib[n - 1];
    TopTagFrame(typed, key, val, num);
    SubtagsFrame(TopTag(typed, key, val, num).value, e.tags, num, "type");
  }

  // ---------------------------------------------------------------------------
  // The metadata dictionary

  /** Every metadata attribute among attrib is recorded under `created` with its value. */
  ghost predicate CreatedRecords(m: Fields, attrib: seq<(string, string)>) {
    forall j :: 0 <= j < |attrib| && attrib[j].0 in Created ==>
      "created" in m && m["created"].Dict? && attrib[j].0 in m["created"].entries &&
      m["created"].entries[attrib[j].0] == attrib[j].1
  }

  /** `created`, when present, is a dictionary holding nothing but metadata attributes among attrib. */
  ghost predicate CreatedFromAttributes(m: Fields, attrib: seq<(string, string)>) {
    "created" in m ==>
      m["created"].Dict? &&
      forall s :: s in m["created"].entries ==> s in Created && exists j :: 0 <= j < |attrib| && attrib[j].0 == s
  }

  ghost predicate DistinctKeys(attrib: seq<(string, string)>) {
    forall i, j :: 0 <= i < j < |attrib| ==> attrib[i].0 != attrib[j].0
  }

  lemma CreatedTransfer(n: Fields, m: Fields, attrib: seq<(string, string)>)
    requires Same(n, m, "created")
    requires CreatedRecords(n, attrib) && CreatedFromAttributes(n, attrib)
    ensures CreatedRecords(m, attrib) && CreatedFromAttributes(m, attrib)
  {
  }

  /** process_toptags for one more attribute, whose key is new, keeps `created` in step with the attributes. */
  lemma CreatedStep(n: Fields, pre: seq<(string, string)>, key: string, val: string, num: Numerics)
    requires CreatedRecords(n, pre) && CreatedFromAttributes(n, pre)
    requires forall j :: 0 <= j < |pre| ==> pre[j].0 != key
    requires key != "created" && TopTag(n, key, val, num).Ok?
    ensures CreatedRecords(TopTag(n, key, val, num).value, pre + [(key, val)])
    ensures CreatedFromAttributes(TopTag(n, key, val, num).value, pre + [(key, val)])
  {
    var m := TopTag(n, key, val, num).value;
    var all := pre + [(key, val)];
    assert forall j :: 0 <= j < |pre| ==> all[j] == pre[j];
    assert all[|pre|] == (key, val);
    if key in Created {
      TopTagCreated(n, key, val, num);
      forall s | s in m["created"].entries
        ensures s in Created && exists j :: 0 <= j < |all| && all[j].0 == s
      {
        if s != key {
          var j :| 0 <= j < |pre| && pre[j].0 == s;
          assert all[j].0 == s;
        } else {
          assert all[|pre|].0 == s;
        }
      }
    } else {
      TopTagFrame(n, key, val, num);
      forall s | "created" in m && s in m["created"].entries
        ensures exists j :: 0 <= j < |all| && all[j].0 == s
      {
        var j :| 0 <= j < |pre| && pre[j].0 == s;
        assert all[j].0 == s;
      }
    }
  }

  lemma {:induction false} AttribPassCreated(e: Element, n: nat, num: Numerics)
    requires n <= |e.attrib| && AttribPass(e, n, num).Ok?
    requires DistinctKeys(e.attrib)
    requires forall i :: 0 <= i < |e.attrib| ==> e.attrib[i].0 != "created"
    requires Untouched("created", e.tags)
    ensures CreatedRecords(AttribPass(e, n, num).value, e.attrib[..n])
    ensures CreatedFromAttributes(AttribPass(e, n, num).value, e.attrib[..n])
  {
    if n > 0 {
      AttribPassCreated(e, n - 1, num);
      var prev := AttribPass(e, n - 1, num).value;
      var typed := prev["type" := Text(e.tag)];
      var (key, val) := e.attrib[n - 1];
      CreatedTransfer(prev, typed, e.attrib[..n - 1]);
      CreatedStep(typed, e.attrib[..n - 1], key, val, num);
      assert e.attrib[..n] == e.attrib[..n - 1] + [(key, val)];
      var topped := TopTag(typed, key, val, num).value;
      SubtagsFrame(topped, e.tags, num, "created");
      CreatedTransfer(topped, AttribPass(e, n, num).value, e.attrib[..n]);
    }
  }

  /**
   With distinct attribute keys, none of them `created` and no tag writing `created`,
   the document's `created` dictionary maps exactly the metadata attributes to their values.
   */
  lemma ShapeCreated(e: Element, num: Numerics)
    requires Shape(e, num).Shaped?
    requires DistinctKeys(e.attrib)
    requires forall i :: 0 <= i < |e.attrib| ==> e.attrib[i].0 != "created"
    requires Untouched("created", e.tags)
    ensures CreatedRecords(Shape(e, num).fields, e.attrib)
    ensures CreatedFromAttributes(Shape(e, num).fields, e.attrib)
  {
    ShapeKeepsAttribPass(e, num, "created");
    AttribPassCreated(e, |e.attrib|, num);
    assert e.attrib[..|e.attrib|] == e.attrib;
  }

  /**
   A metadata key goes only into `created`: unless a tag is keyed the same, it is never a
   key of the dictionary itself, whichever attributes the loop has run over.
   */
  lemma {:induction false} CreatedKeyNotTop(e: Element, n: nat, num: Numerics, x: string)
    requires n <= |e.attrib| && AttribPass(e, n, num).Ok?
    requires x in Created && Untouched(x, e.tags)
    ensures x !in AttribPass(e, n, num).value
  {
    if n > 0 {
      CreatedKeyNotTop(e, n - 1, num, x);
      CreatedKeyStep(AttribPass(e, n - 1, num).value, e, e.attrib[n - 1].0, e.attrib[n - 1].1, num, x);
    }
  }

  lemma CreatedKeyStep(m: Fields, e: Element, key: string, val: string, num: Numerics, x: string)
    requires AttribStep(m, e, key, val, num).Ok?
    requires x !in m && x in Created && Untouched(x, e.tags)
    ensures x !in AttribStep(m, e, key, val, num).value
  {
    var typed := m["type" := Text(e.tag)];
    assert x !in typed;
    if key == x {
      TopTagCreated(typed, key, val, num);
    } else {
      TopTagFrame(typed, key, val, num);
    }
    SubtagsFrame(TopTag(typed, key, val, num).value, e.tags, num, x);
  }

  /** The shaped document has no metadata key at its top level unless a tag is keyed so. */
  lemma ShapeCreatedNotTop(e: Element, num: Numerics, x: string)
    requires Shape(e, num).Shaped?
    requires x in Created && Untouched(x, e.tags)
    ensures x !in Shape(e, num).fields
  {
    ShapeKeepsAttribPass(e, num, x);
    CreatedKeyNotTop(e, |e.attrib|, num, x);
  }

  // ---------------------------------------------------------------------------
  // The address dictionary

  /**
   Each entry of an `address` dictionary comes from a tag `addr:<entry>` whose entry name
   is not compound, with the value that tag's corrector gives.
   */
  ghost predicate AddressFromTags(m: Fields, tags: seq<(string, string)>) {
    "address" in m && m["address"].Dict? ==>
      forall a :: a in m["address"].entries ==>
        exists i :: 0 <= i < |tags| && tags[i].0 == "addr:" + a && !LowerColon(a) &&
                    AddressValue(tags[i].0, tags[i].1) == Some(m["address"].entries[a])
  }

  lemma TagStepAddress(n: Fields, tags: seq<(string, string)>, idx: nat, num: Numerics)
    requires idx < |tags| && AddressFromTags(n, tags)
    requires TagStep(n, tags[idx].0, tags[idx].1, num).Ok?
    ensures AddressFromTags(TagStep(n, tags[idx].0, tags[idx].1, num).value, tags)
  {
    var (k, v) := tags[idx];
    var m := TagStep(n, k, v, num).value;
    if ProblemKey(k) {
    } else if StartsWith(k, "addr:") {
      var addrKey := k[5..];
      assert k == "addr:" + addrKey by {
        assert k == k[..5] + k[5..];
      }
      var n1 := WithDefault(n, "address", Dict(map[]));
      if !LowerColon(addrKey) && AddressValue(k, v).Some? {
        var d := n1["address"].entries;
        assert m["address"] == Dict(d[addrKey := AddressValue(k, v).value]);
        forall a | a in m["address"].entries
          ensures exists i :: 0 <= i < |tags| && tags[i].0 == "addr:" + a && !LowerColon(a) &&
                              AddressValue(tags[i].0, tags[i].1) == Some(m["address"].entries[a])
        {
          if a == addrKey {
            assert tags[idx].0 == "addr:" + a;
          } else {
            assert a in d;
          }
        }
      }
    } else if k == "address" {
      assert m["address"].Text?;
    } else {
      TagStepFrame(n, k, v, num);
      assert Same(n, m, "address");
    }
  }

  lemma {:induction false} SubtagsAddress(n: Fields, tags: seq<(string, string)>, p: nat, num: Numerics)
    requires p <= |tags| && AddressFromTags(n, tags) && Subtags(n, tags[..p], num).Ok?
    ensures AddressFromTags(Subtags(n, tags[..p], num).value, tags)
  {
    if p > 0 {
      assert tags[..p][..p - 1] == tags[..p - 1];
      SubtagsAddress(n, tags, p - 1, num);
      TagStepAddress(Subtags(n, tags[..p - 1], num).value, tags, p - 1, num);
    }
  }

  lemma {:induction false} AttribPassAddress(e: Element, n: nat, num: Numerics)
    requires n <= |e.attrib| && AttribPass(e, n, num).Ok?
    ensures AddressFromTags(AttribPass(e, n, num).value, e.tags)
  {
    if n > 0 {
      AttribPassAddress(e, n - 1, num);
      var typed := AttribPass(e, n - 1, num).value["type" := Text(e.tag)];
      var (key, val) := e.attrib[n - 1];
      var topped := TopTag(typed, key, val, num).value;
      if key == "address" {
        assert topped["address"].Text?;
      } else {
        TopTagFrame(typed, key, val, num);
        assert Same(typed, topped, "address");
      }
      assert e.tags[..|e.tags|] == e.tags;
      SubtagsAddress(topped, e.tags, |e.tags|, num);
    }
  }

  /**
   The document's `address` entries all come from `addr:` tags: a postcode never holds a
   hyphen, and a street is the corrected form of some `addr:street` value.
   */
  lemma ShapeAddress(e: Element, num: Numerics)
    requires Shape(e, num).Shaped?
    ensures AddressFromTags(Shape(e, num).fields, e.tags)
    ensures var m := Shape(e, num).fields;
            "address" in m && m["address"].Dict? ==>
              ("postcode" in m["address"].entries ==> '-' !in m["address"].entries["postcode"]) &&
              ("street" in m["address"].entries ==>
                 exists i :: 0 <= i < |e.tags| && e.tags[i].0 == "addr:street" &&
                             m["address"].entries["street"] == Corrections.CorrectedStreet(e.tags[i].1))
  {
    ShapeKeepsAttribPass(e, num, "address");
    AttribPassAddress(e, |e.attrib|, num);
    var m := Shape(e, num).fields;
    assert "addr:" + "postcode" == "addr:postcode";
    assert "addr:" + "street" == "addr:street";
    if "address" in m && m["address"].Dict? && "postcode" in m["address"].entries {
      var i :| 0 <= i < |e.tags| && e.tags[i].0 == "addr:" + "postcode" &&
               AddressValue(e.tags[i].0, e.tags[i].1) == Some(m["address"].entries["postcode"]);
    }
  }
}
