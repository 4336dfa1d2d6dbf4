/** Callback bodies in bracket notation, `group[child]=value`, and the two parsers that nest them
    (app/robots/payload.py and app/bitrix/payload.py). */
module BracketNotation {
  /** A received body: a mapping in the order of its keys. */
  datatype Raw = Scalar(text: string) | Nested(entries: seq<(string, Raw)>)

  /** A normalized document; the order of keys no longer matters. */
  datatype Value = Text(text: string) | Group(fields: map<string, Value>)

  type Document = map<string, Value>

  datatype Parser = RobotParser | LifecycleParser

  // ---------------------------------------------------------------- keys

  datatype Key = Plain | Bracket(group: string, child: string)

  function FirstBracket(key: string): (i: nat)
    ensures i <= |key| && '[' !in key[..i] && (i < |key| ==> key[i] == '[')
  {
    if key == "" || key[0] == '[' then 0
    else
      var i := 1 + FirstBracket(key[1..]);
      assert key[..i] == [key[0]] + key[1..][..i - 1];
      i
  }

  /** A key with an opening bracket somewhere and a closing one at its end splits at the first opening bracket. */
  function ParseKey(key: string): Key {
    var i := FirstBracket(key);
    if i < |key| && key[|key| - 1] == ']' then Bracket(key[..i], key[i + 1..|key| - 1]) else Plain
  }

  function Join(group: string, child: string): string {
    group + "[" + child + "]"
  }

  lemma {:induction false} FirstBracketAt(key: string, i: nat)
    requires i < |key| && key[i] == '[' && '[' !in key[..i]
    ensures FirstBracket(key) == i
  {
    if 0 < i {
      assert key[..i] == [key[0]] + key[1..][..i - 1];
      FirstBracketAt(key[1..], i - 1);
    }
  }

  /** Joining and parsing are inverse; the child may itself contain brackets, the group may not contain an opening
      one. */
  lemma ParseJoin(group: string, child: string)
    requires '[' !in group
    ensures ParseKey(Join(group, child)) == Bracket(group, child)
  {
    var key := Join(group, child);
    assert key[..|group|] == group;
    FirstBracketAt(key, |group|);
    assert key[|group| + 1..|key| - 1] == child;
  }

  lemma JoinParse(key: string)
    requires ParseKey(key).Bracket?
    ensures '[' !in ParseKey(key).group && key == Join(ParseKey(key).group, ParseKey(key).child)
  {
  }

  /** The groups that each parser nests. */
  predicate Accepts(parser: Parser, key: Key) {
    && key.Bracket? && key.child != ""
    && match parser
       case RobotParser => key.group == "auth" || key.group == "properties" || key.group == "PROPERTIES"
       case LifecycleParser => key.group != ""
  }

  // ---------------------------------------------------------------- one entry

  /** `setdefault(group, {})[child] = value`, skipped when the group key already holds something else. */
  function AddChild(copied: Document, group: string, child: string, value: Value): Document {
    if group !in copied then copied[group := Group(map[child := value])]
    else if copied[group].Group? then copied[group := Group(copied[group].fields[child := value])]
    else copied
  }

  /** A shallow copy of a nested mapping, as it is. */
  function AsIs(raw: Raw): Value {
    match raw
    case Scalar(text) => Text(text)
    case Nested(_) => Group(AsIsUpTo(raw, |raw.entries|))
  }

  function AsIsUpTo(raw: Raw, n: nat): Document
    requires raw.Nested? && n <= |raw.entries|
    decreases raw, n
  {
    if n == 0 then map[] else AsIsUpTo(raw, n - 1)[raw.entries[n - 1].0 := AsIs(raw.entries[n - 1].1)]
  }

  /** One turn of the lifecycle parser's loop. */
  function LifecyclePut(copied: Document, key: string, value: Raw): Document {
    var parsed := ParseKey(key);
    if Accepts(LifecycleParser, parsed) then AddChild(copied, parsed.group, parsed.child, AsIs(value))
    else copied[key := AsIs(value)]
  }

  function LifecycleCopy(source: seq<(string, Raw)>): Document {
    if source == [] then map[]
    else LifecyclePut(LifecycleCopy(source[..|source| - 1]), source[|source| - 1].0, source[|source| - 1].1)
  }

  /** The robot parser copies nested mappings recursively and never reads their own key as a bracket key. */
  function RobotCopy(raw: Raw): Document
    requires raw.Nested?
    decreases raw, |raw.entries| + 1
  {
    RobotCopyUpTo(raw, |raw.entries|)
  }

  function RobotCopyUpTo(raw: Raw, n: nat): Document
    requires raw.Nested? && n <= |raw.entries|
    decreases raw, n
  {
    if n == 0 then map[]
    else
      var copied, key, value := RobotCopyUpTo(raw, n - 1), raw.entries[n - 1].0, raw.entries[n - 1].1;
      match value
      case Nested(_) => copied[key := Group(RobotCopy(value))]
      case Scalar(text) =>
        var parsed := ParseKey(key);
        if Accepts(RobotParser, parsed) then AddChild(copied, parsed.group, parsed.child, Text(text))
        else copied[key := Text(text)]
  }

  // ---------------------------------------------------------------- the two loops

  method CopyLifecycle(source: seq<(string, Raw)>) returns (result: Document)
    ensures result == LifecycleCopy(source)
  {
    result := map[];
    for k := 0 to |source|
      invariant result == LifecycleCopy(source[..k])
    {
      assert source[..k + 1][..k] == source[..k];
      var key, value := source[k].0, source[k].1;
      var parsed := ParseKey(key);
      if Accepts(LifecycleParser, parsed) {
        if parsed.group !in result {
          result := result[parsed.group := Group(map[])];
        }
        if result[parsed.group].Group? {
          result := result[parsed.group := Group(result[parsed.group].fields[parsed.child := AsIs(value)])];
        }
      } else {
        result := result[key := AsIs(value)];
      }
    }
    assert source[..|source|] == source;
  }

  method CopyRobot(raw: Raw) returns (copied: Document)
    requires raw.Nested?
    ensures copied == RobotCopy(raw)
    decreases raw
  {
    copied := map[];
    for k := 0 to |raw.entries|
      invariant copied == RobotCopyUpTo(raw, k)
    {
      var key, value := raw.entries[k].0, raw.entries[k].1;
      if value.Nested? {
        var inner := CopyRobot(value);
        copied := copied[key := Group(inner)];
      } else {
        var parsed := ParseKey(key);
        if Accepts(RobotParser, parsed) {
          if parsed.group !in copied {
            copied := copied[parsed.group := Group(map[])];
          }
          if copied[parsed.group].Group? {
            copied := copied[parsed.group := Group(copied[parsed.group].fields[parsed.child := Text(value.text)])];
          }
        } else {
          copied := copied[key := Text(value.text)];
        }
      }
    }
  }

  // ---------------------------------------------------------------- flat bodies

  function Put(parser: Parser, copied: Document, key: string, text: string): Document {
    var parsed := ParseKey(key);
    if Accepts(parser, parsed) then AddChild(copied, parsed.group, parsed.child, Text(text))
    else copied[key := Text(text)]
  }

  function FlatCopy(parser: Parser, pairs: seq<(string, string)>): Document {
    if pairs == [] then map[]
    else Put(parser, FlatCopy(parser, pairs[..|pairs| - 1]), pairs[|pairs| - 1].0, pairs[|pairs| - 1].1)
  }

  function Scalars(pairs: seq<(string, string)>): seq<(string, Raw)> {
    seq(|pairs|, i requires 0 <= i < |pairs| => (pairs[i].0, Scalar(pairs[i].1)))
  }

  /** On a body of scalars both parsers do the same, up to the groups they accept. */
  lemma {:induction false} ParsersOnFlatBodies(pairs: seq<(string, string)>)
    ensures LifecycleCopy(Scalars(pairs)) == FlatCopy(LifecycleParser, pairs)
    ensures RobotCopy(Nested(Scalars(pairs))) == FlatCopy(RobotParser, pairs)
  {
    LifecycleOnFlat(pairs);
    RobotOnFlat(Nested(Scalars(pairs)), pairs, |pairs|);
    assert pairs[..|pairs|] == pairs;
  }

  lemma {:induction false} LifecycleOnFlat(pairs: seq<(string, string)>)
    ensures LifecycleCopy(Scalars(pairs)) == FlatCopy(LifecycleParser, pairs)
  {
    if pairs != [] {
      LifecycleOnFlat(pairs[..|pairs| - 1]);
      assert Scalars(pairs)[..|pairs| - 1] == Scalars(pairs[..|pairs| - 1]);
    }
  }

  lemma {:induction false} RobotOnFlat(raw: Raw, pairs: seq<(string, string)>, n: nat)
    requires raw == Nested(Scalars(pairs)) && n <= |pairs|
    ensures RobotCopyUpTo(raw, n) == FlatCopy(RobotParser, pairs[..n])
  {
    if 0 < n {
      RobotOnFlat(raw, pairs, n - 1);
      assert pairs[..n][..n - 1] == pairs[..n - 1];
    }
  }

  // ---------------------------------------------------------------- what each entry does

  /** The group names whose bracket keys a parser nests. */
  predicate Nests(parser: Parser, group: string) {
    if parser.RobotParser? then group in {"auth", "properties", "PROPERTIES"} else group != ""
  }

  /** `value` filed as a child of a group: a new group, one more child, or nothing where a text has taken the name. */
  predicate FiledInGroup(before: Document, after: Document, group: string, child: string, value: Value) {
    if group !in before then after == before[group := Group(map[child := value])]
    else if before[group].Text? then after == before
    else after == before[group := Group(before[group].fields[child := value])]
  }

  /** A key of the form group[child], whose child may hold brackets itself. */
  lemma PutBracketed(parser: Parser, copied: Document, group: string, child: string, text: string)
    requires '[' !in group
    ensures var after := Put(parser, copied, group + "[" + child + "]", text);
            if child != "" && Nests(parser, group) then FiledInGroup(copied, after, group, child, Text(text))
            else after == copied[group + "[" + child + "]" := Text(text)]
  {
    ParseJoin(group, child);
  }

  /** Any other key: without an opening bracket, or not closed at its end. */
  lemma PutPlain(parser: Parser, copied: Document, key: string, text: string)
    requires '[' !in key || key[|key| - 1] != ']'
    ensures Put(parser, copied, key, text) == copied[key := Text(text)]
  {
  }

  /** The lifecycle parser files any value like that, a mapping as it is. */
  lemma LifecycleBracketed(copied: Document, group: string, child: string, value: Raw)
    requires '[' !in group
    ensures var after := LifecyclePut(copied, group + "[" + child + "]", value);
            if child != "" && group != "" then FiledInGroup(copied, after, group, child, AsIs(value))
            else after == copied[group + "[" + child + "]" := AsIs(value)]
  {
    ParseJoin(group, child);
  }

  lemma LifecyclePlain(copied: Document, key: string, value: Raw)
    requires '[' !in key || key[|key| - 1] != ']'
    ensures LifecyclePut(copied, key, value) == copied[key := AsIs(value)]
  {
  }

  lemma LifecycleAppend(source: seq<(string, Raw)>, key: string, value: Raw)
    ensures LifecycleCopy([]) == map[]
    ensures LifecycleCopy(source + [(key, value)]) == LifecyclePut(LifecycleCopy(source), key, value)
  {
    assert (source + [(key, value)])[..|source|] == source;
  }

  lemma {:induction false} AsIsPrefix(entries: seq<(string, Raw)>, more: seq<(string, Raw)>, n: nat)
    requires n <= |entries|
    ensures AsIsUpTo(Nested(entries + more), n) == AsIsUpTo(Nested(entries), n)
  {
    if 0 < n {
      AsIsPrefix(entries, more, n - 1);
      assert Nested(entries + more).entries[n - 1] == entries[n - 1];
    }
  }

  /** A mapping copied as it is keeps its keys; of equal keys the last one wins. */
  lemma AsIsAppend(entries: seq<(string, Raw)>, key: string, value: Raw)
    ensures AsIs(Nested([])) == Group(map[])
    ensures AsIs(Nested(entries + [(key, value)])) == Group(AsIs(Nested(entries)).fields[key := AsIs(value)])
    ensures forall text :: AsIs(Scalar(text)) == Text(text)
  {
    AsIsPrefix(entries, [(key, value)], |entries|);
  }

  lemma {:induction false} RobotPrefix(entries: seq<(string, Raw)>, more: seq<(string, Raw)>, n: nat)
    requires n <= |entries|
    ensures RobotCopyUpTo(Nested(entries + more), n) == RobotCopyUpTo(Nested(entries), n)
  {
    if 0 < n {
      RobotPrefix(entries, more, n - 1);
      assert Nested(entries + more).entries[n - 1] == entries[n - 1];
    }
  }

  /** The robot parser nests bracket keys inside nested mappings too, and keeps a mapping's own key as it stands. */
  lemma RobotAppend(entries: seq<(string, Raw)>, key: string, value: Raw)
    ensures RobotCopy(Nested([])) == map[]
    ensures RobotCopy(Nested(entries + [(key, value)]))
         == match value
            case Nested(_) => RobotCopy(Nested(entries))[key := Group(RobotCopy(value))]
            case Scalar(text) => Put(RobotParser, RobotCopy(Nested(entries)), key, text)
  {
    RobotPrefix(entries, [(key, value)], |entries|);
  }

  // ---------------------------------------------------------------- round trip

  /** A two-level document: texts, and groups of texts. */
  predicate TwoLevel(doc: Document) {
    forall k | k in doc && doc[k].Group? :: forall c | c in doc[k].fields :: doc[k].fields[c].Text?
  }

  /** The documents that a flat body can express for this parser. */
  predicate Expressible(parser: Parser, doc: Document) {
    && TwoLevel(doc)
    && (forall k | k in doc && doc[k].Text? :: !Accepts(parser, ParseKey(k)))
    && (forall k | k in doc && doc[k].Group? :: doc[k].fields != map[] && '[' !in k)
    && (forall k | k in doc && doc[k].Group? :: forall c | c in doc[k].fields :: Accepts(parser, Bracket(k, c)))
  }

  ghost predicate InGroup(doc: Document, key: string, text: string, group: string, child: string) {
    && group in doc && doc[group].Group? && child in doc[group].fields
    && doc[group].fields[child] == Text(text) && key == Join(group, child)
  }

  /** `key=text` is one of the pairs that the document flattens to. */
  ghost predicate FlatPair(doc: Document, key: string, text: string) {
    || (key in doc && doc[key] == Text(text))
    || exists group, child :: InGroup(doc, key, text, group, child)
  }

  /** The pairs are those of the document, in any order. */
  ghost predicate Flattens(pairs: seq<(string, string)>, doc: Document) {
    && (forall i | 0 <= i < |pairs| :: FlatPair(doc, pairs[i].0, pairs[i].1))
    && (forall key, text :: FlatPair(doc, key, text) ==> (key, text) in pairs)
  }

  /** Where a parser files a pair. */
  predicate Filed(parser: Parser, copied: Document, key: string, text: string) {
    var parsed := ParseKey(key);
    if Accepts(parser, parsed)
    then && parsed.group in copied && copied[parsed.group].Group?
         && parsed.child in copied[parsed.group].fields && copied[parsed.group].fields[parsed.child] == Text(text)
    else key in copied && copied[key] == Text(text)
  }

  predicate SubDocument(part: Document, doc: Document) {
    forall k | k in part ::
      && k in doc
      && (part[k].Text? ==> doc[k] == part[k])
      && (part[k].Group? ==> doc[k].Group? && forall c | c in part[k].fields ::
                                c in doc[k].fields && doc[k].fields[c] == part[k].fields[c])
  }

  /** A pair of an expressible document is filed where the document has it. */
  lemma PairIsFiled(parser: Parser, doc: Document, key: string, text: string)
    requires Expressible(parser, doc) && FlatPair(doc, key, text)
    ensures Filed(parser, doc, key, text)
  {
    if !(key in doc && doc[key] == Text(text)) {
      var group, child :| InGroup(doc, key, text, group, child);
      ParseJoin(group, child);
    }
  }

  lemma PutGrows(parser: Parser, doc: Document, part: Document, key: string, text: string)
    requires SubDocument(part, doc) && Filed(parser, doc, key, text)
    ensures SubDocument(Put(parser, part, key, text), doc)
    ensures Filed(parser, Put(parser, part, key, text), key, text)
  {
  }

  lemma PutKeeps(parser: Parser, doc: Document, part: Document, key: string, text: string, key': string, text': string)
    requires SubDocument(part, doc) && Filed(parser, doc, key, text)
    requires Filed(parser, part, key', text')
    ensures Filed(parser, Put(parser, part, key, text), key', text')
  {
  }

  lemma {:induction false} CopyGathers(parser: Parser, doc: Document, pairs: seq<(string, string)>)
    requires forall i | 0 <= i < |pairs| :: Filed(parser, doc, pairs[i].0, pairs[i].1)
    ensures SubDocument(FlatCopy(parser, pairs), doc)
    ensures forall i | 0 <= i < |pairs| :: Filed(parser, FlatCopy(parser, pairs), pairs[i].0, pairs[i].1)
  {
    if pairs != [] {
      var n := |pairs| - 1;
      var part := FlatCopy(parser, pairs[..n]);
      CopyGathers(parser, doc, pairs[..n]);
      PutGrows(parser, doc, part, pairs[n].0, pairs[n].1);
      forall i | 0 <= i < n
        ensures Filed(parser, FlatCopy(parser, pairs), pairs[i].0, pairs[i].1)
      {
        assert pairs[..n][i] == pairs[i];
        PutKeeps(parser, doc, part, pairs[n].0, pairs[n].1, pairs[i].0, pairs[i].1);
      }
    }
  }

  lemma CompleteSubDocument(parser: Parser, part: Document, doc: Document)
    requires Expressible(parser, doc) && SubDocument(part, doc)
    requires forall key, text :: FlatPair(doc, key, text) ==> Filed(parser, part, key, text)
    ensures part == doc
  {
    forall k | k in doc
      ensures k in part && part[k] == doc[k]
    {
      if doc[k].Text? {
        assert FlatPair(doc, k, doc[k].text);
      } else {
        forall c | c in doc[k].fields
          ensures k in part && part[k].Group? && c in part[k].fields && part[k].fields[c] == doc[k].fields[c]
        {
          assert InGroup(doc, Join(k, c), doc[k].fields[c].text, k, c);
          assert FlatPair(doc, Join(k, c), doc[k].fields[c].text);
          ParseJoin(k, c);
        }
        var c :| c in doc[k].fields;
        assert part[k].fields == doc[k].fields;
      }
    }
  }

  /** Whatever the flat body, what a parser makes of it is expressible. */
  lemma {:induction false} CopyIsExpressible(parser: Parser, pairs: seq<(string, string)>)
    ensures Expressible(parser, FlatCopy(parser, pairs))
  {
    if pairs != [] {
      var n := |pairs| - 1;
      CopyIsExpressible(parser, pairs[..n]);
      PutIsExpressible(parser, FlatCopy(parser, pairs[..n]), pairs[n].0, pairs[n].1);
    }
  }

  lemma PutIsExpressible(parser: Parser, part: Document, key: string, text: string)
    requires Expressible(parser, part)
    ensures Expressible(parser, Put(parser, part, key, text))
  {
    var parsed := ParseKey(key);
    if Accepts(parser, parsed) {
      JoinParse(key);
      var next := AddChild(part, parsed.group, parsed.child, Text(text));
      assert next[parsed.group].Group? ==> parsed.child in next[parsed.group].fields;
    }
  }

  /** The round trip, in both directions: nesting the flat pairs of a two-level document, in any order, gives the
      document back if and only if every group is non-empty with non-empty children and an accepted name, and no text
      key itself reads as an accepted bracket key. */
  lemma RoundTrip(parser: Parser, pairs: seq<(string, string)>, doc: Document)
    requires TwoLevel(doc) && Flattens(pairs, doc)
    ensures FlatCopy(parser, pairs) == doc <==> Expressible(parser, doc)
  {
    CopyIsExpressible(parser, pairs);
    if Expressible(parser, doc) {
      forall i | 0 <= i < |pairs|
        ensures Filed(parser, doc, pairs[i].0, pairs[i].1)
      {
        PairIsFiled(parser, doc, pairs[i].0, pairs[i].1);
      }
      CopyGathers(parser, doc, pairs);
      CompleteSubDocument(parser, FlatCopy(parser, pairs), doc);
    }
  }
}
