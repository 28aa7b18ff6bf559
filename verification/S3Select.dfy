/**
 The pure parts of the S3 select call: the IN list it builds from a
 comma-separated parameter, and the JSON array it assembles from the record
 stream, which arrives cut into events at arbitrary places.
 */
module S3Select {
  import opened Sequences
  import opened Tokens
  import Utils

  // ---------- the IN list ----------

  function Quoted(tokens: seq<string>): string {
    if tokens == [] then ""
    else if |tokens| == 1 then "'" + tokens[0] + "'"
    else "'" + tokens[0] + "'," + Quoted(tokens[1..])
  }

  function InList(tokens: seq<string>): string {
    "(" + Quoted(tokens) + ")"
  }

  lemma {:induction false} QuotedAppend(tokens: seq<string>, t: string)
    ensures Quoted(tokens + [t]) == if tokens == [] then "'" + t + "'" else Quoted(tokens) + (",'" + t + "'")
  {
    if tokens == [] {
      assert [] + [t] == [t];
    } else {
      var rest := tokens[1..];
      assert (tokens + [t])[1..] == rest + [t];
      QuotedAppend(rest, t);
      if rest == [] {
        assert rest + [t] == [t];
        TwoQuoted(tokens[0], t);
      } else {
        InThreeParts("'" + tokens[0] + "',", Quoted(rest), ",'" + t + "'");
      }
    }
  }

  lemma {:induction false} TwoQuoted(a: string, b: string)
    ensures "'" + a + "'," + ("'" + b + "'") == "'" + a + "'" + (",'" + b + "'")
  {
  }

  lemma {:induction false} InThreeParts(a: string, b: string, c: string)
    ensures a + (b + c) == (a + b) + c
  {
  }

  /** The text of an IN list after its first i elements. */
  function InListPrefix(params: seq<string>, i: nat): string
    requires i <= |params|
  {
    "(" + (Quoted(params[..i]) + if 0 < i < |params| then "," else "")
  }

  lemma {:induction false} PrefixGrows(params: seq<string>, i: nat)
    requires i < |params|
    ensures InListPrefix(params, i + 1)
         == InListPrefix(params, i) + ("'" + params[i] + "'") + (if i != |params| - 1 then "," else "")
  {
    var before := params[..i];
    assert params[..i + 1] == before + [params[i]];
    QuotedAppend(before, params[i]);
    if i == 0 {
      assert Quoted(before) == "";
    } else {
      InThreeParts(Quoted(before), ",", "'" + params[i] + "'");
    }
  }

  /** The loop over params: a quoted element, then a comma unless it is the last. */
  method BuildInList(params: seq<string>) returns (list: string)
    ensures list == InList(params)
  {
    list := "(";
    for i := 0 to |params|
      invariant list == InListPrefix(params, i)
    {
      PrefixGrows(params, i);
      list := list + ("'" + params[i] + "'");
      list := list + (if i != |params| - 1 then "," else "");
    }
    assert params[..|params|] == params;
    list := list + ")";
  }

  method BuildExpression(column: string, clause: string) returns (expression: string)
    ensures expression ==
      if clause == "" then "SELECT * FROM S3Object"
      else "SELECT * FROM S3Object WHERE " + column + " IN " + InList(Lines(clause, ','))
  {
    if clause != "" {
      var params := Utils.GetTokens(clause, ',');
      var list := BuildInList(params);
      expression := "SELECT * FROM S3Object WHERE " + column + " IN " + list;
    } else {
      expression := "SELECT * FROM S3Object";
    }
  }

  datatype Parsed = Parsed(tokens: seq<string>) | Malformed

  /** A reader of quoted lists: quote, text without quotes, quote, then a comma or the end. */
  function ReadQuoted(s: string): Parsed
    decreases |s|
  {
    if s == "" || s[0] != '\'' then Malformed
    else
      var i := 1 + Find(s[1..], '\'');
      if i >= |s| then Malformed
      else if i + 1 == |s| then Parsed([s[1..i]])
      else if s[i + 1] != ',' then Malformed
      else
        match ReadQuoted(s[i + 2..])
        case Malformed => Malformed
        case Parsed(rest) => Parsed([s[1..i]] + rest)
  }

  /** A reader of parenthesised lists. */
  function ReadInList(s: string): Parsed {
    if |s| < 2 || s[0] != '(' || s[|s| - 1] != ')' then Malformed else ReadQuoted(s[1..|s| - 1])
  }

  lemma {:induction false} ReadBackQuoted(tokens: seq<string>)
    requires tokens != [] && Clean(tokens, '\'')
    ensures ReadQuoted(Quoted(tokens)) == Parsed(tokens)
  {
    var t, rest := tokens[0], tokens[1..];
    var tail := if rest == [] then "" else "," + Quoted(rest);
    var s := Quoted(tokens);
    assert s == "'" + (t + "'" + tail);
    assert s[1..] == t + ['\''] + tail;
    FindAfterCleanText(t, '\'', tail);
    assert s[1..|t| + 1] == t;
    if rest == [] {
      assert tokens == [t];
    } else {
      assert s[|t| + 3..] == Quoted(rest);
      ReadBackQuoted(rest);
      assert tokens == [t] + rest;
    }
  }

  lemma {:induction false} ReadTokensHaveNoQuote(s: string)
    ensures ReadQuoted(s).Parsed? ==> Clean(ReadQuoted(s).tokens, '\'')
    decreases |s|
  {
    if s != "" && s[0] == '\'' {
      var i := 1 + Find(s[1..], '\'');
      if i + 1 < |s| && s[i + 1] == ',' {
        ReadTokensHaveNoQuote(s[i + 2..]);
      }
      if i < |s| {
        assert s[1..i] == s[1..][..i - 1];
      }
    }
  }

  /**
   Reading the generated IN list recovers the parameter's tokens exactly when none
   of them contains a quote. The parameter is not empty, so neither is the list.
   */
  lemma InListReadsBack(clause: string)
    requires clause != ""
    ensures Lines(clause, ',') != []
    ensures ReadInList(InList(Lines(clause, ','))) == Parsed(Lines(clause, ',')) <==> Clean(Lines(clause, ','), '\'')
  {
    var tokens := Lines(clause, ',');
    LinesThenJoin(clause, ',');
    assert tokens != [] by {
      NonEmptyTextHasALine(clause, ',');
    }
    var s := InList(tokens);
    assert s[1..|s| - 1] == Quoted(tokens);
    ReadTokensHaveNoQuote(Quoted(tokens));
    if Clean(tokens, '\'') {
      ReadBackQuoted(tokens);
    }
  }

  lemma NonEmptyTextHasALine(s: string, d: char)
    requires s != ""
    ensures Lines(s, d) != []
  {
    LinesThenJoin(s, d);
    if EndsWith(s, d) {
      assert Count(s, d) >= 1;
    }
  }

  // ---------- the record array ----------

  /** What survives c_str(): the text before the first NUL. */
  function CStr(payload: string): string {
    payload[..Find(payload, '\0')]
  }

  function Received(events: seq<string>): string {
    if events == [] then "" else Received(events[..|events| - 1]) + CStr(events[|events| - 1])
  }

  function Close(text: string): string {
    (if EndsWith(text, ',') then text[..|text| - 1] else text) + "]"
  }

  function Output(events: seq<string>): string {
    Close("[" + Received(events))
  }

  method Assemble(events: seq<string>) returns (output: string)
    ensures output == Output(events)
  {
    output := "[";
    for i := 0 to |events|
      invariant output == "[" + Received(events[..i])
    {
      assert events[..i + 1][..i] == events[..i];
      output := output + CStr(events[i]);
    }
    assert events[..|events|] == events;
    if output != "" && output[|output| - 1] == ',' {
      output := output[..|output| - 1];
    }
    output := output + "]";
  }

  lemma {:induction false} ReceivedIsShorter(events: seq<string>)
    ensures |Received(events)| <= |Concat(events)|
    ensures |Received(events)| == |Concat(events)| ==> forall i :: 0 <= i < |events| ==> '\0' !in events[i]
  {
    if events != [] {
      var init := events[..|events| - 1];
      ReceivedIsShorter(init);
      var last := events[|events| - 1];
      if |Received(events)| == |Concat(events)| {
        assert last[..Find(last, '\0')] == last;
        forall i | 0 <= i < |events|
          ensures '\0' !in events[i]
        {
          if i < |init| {
            assert init[i] == events[i];
          }
        }
      }
    }
  }

  lemma {:induction false} CleanEventsArriveWhole(events: seq<string>)
    requires forall i :: 0 <= i < |events| ==> '\0' !in events[i]
    ensures Received(events) == Concat(events)
  {
    if events != [] {
      CleanEventsArriveWhole(events[..|events| - 1]);
      var last := events[|events| - 1];
      assert last == last[..Find(last, '\0')];
    }
  }

  /** The stream arrives as it was sent exactly when it holds no NUL. */
  lemma StreamArrivesWhole(events: seq<string>)
    ensures Received(events) == Concat(events) <==> '\0' !in Concat(events)
  {
    ConcatHolds(events);
    ReceivedIsShorter(events);
    if forall i :: 0 <= i < |events| ==> '\0' !in events[i] {
      CleanEventsArriveWhole(events);
    }
  }

  lemma {:induction false} ConcatHolds(events: seq<string>)
    ensures '\0' in Concat(events) <==> exists i :: 0 <= i < |events| && '\0' in events[i]
  {
    if events != [] {
      var init := events[..|events| - 1];
      ConcatHolds(init);
      if '\0' in Concat(init) {
        var i :| 0 <= i < |init| && '\0' in init[i];
        assert '\0' in events[i];
      }
      if i :| 0 <= i < |events| && '\0' in events[i] && i < |init| {
        assert '\0' in init[i];
      }
    }
  }

  // ---------- how the stream is cut ----------

  function KeptCharacter(c: char): string {
    if c == '\0' then "" else [c]
  }

  /** The text without its NULs: what arrives when every character is an event of its own. */
  function Kept(text: string): string {
    if text == "" then "" else Kept(text[..|text| - 1]) + KeptCharacter(text[|text| - 1])
  }

  lemma {:induction false} KeptAppend(a: string, b: string)
    ensures Kept(a + b) == Kept(a) + Kept(b)
  {
    if b == "" {
      assert a + b == a;
    } else {
      var init, c := b[..|b| - 1], b[|b| - 1];
      KeptAppend(a, init);
      assert b == init + [c];
      KeptLast(init, c);
      InThreeParts(a, init, [c]);
      KeptLast(a + init, c);
      InThreeParts(Kept(a), Kept(init), KeptCharacter(c));
    }
  }

  predicate NulsTrail(text: string) {
    forall i, j :: 0 <= i < j < |text| && text[i] == '\0' ==> text[j] == '\0'
  }

  lemma {:induction false} CStrLast(text: string, c: char)
    ensures CStr(text + [c]) == if '\0' in text || c == '\0' then CStr(text) else text + [c]
  {
    if '\0' in text {
      var i := Find(text, '\0');
      assert text == text[..i] + ['\0'] + text[i + 1..];
      FindAfterCleanText(text[..i], '\0', text[i + 1..] + [c]);
      assert text + [c] == text[..i] + ['\0'] + (text[i + 1..] + [c]);
    } else if c == '\0' {
      FindAfterCleanText(text, '\0', "");
      assert text + [c] == text + ['\0'] + "";
    }
  }

  lemma {:induction false} TrailingLast(text: string, c: char)
    ensures NulsTrail(text + [c]) <==> if c == '\0' then NulsTrail(text) else '\0' !in text
  {
    var longer := text + [c];
    assert forall i :: 0 <= i < |text| ==> longer[i] == text[i];
    if c == '\0' {
      assert NulsTrail(longer) ==> NulsTrail(text);
    } else if '\0' in text {
      var i :| 0 <= i < |text| && text[i] == '\0';
      assert longer[i] == '\0' && longer[|text|] != '\0';
    }
  }

  lemma {:induction false} KeptLast(text: string, c: char)
    ensures Kept(text + [c]) == Kept(text) + KeptCharacter(c)
    ensures c == '\0' ==> Kept(text + [c]) == Kept(text)
  {
    assert (text + [c])[..|text|] == text;
  }

  lemma {:induction false} KeptOfTrailing(text: string)
    ensures |CStr(text)| <= |Kept(text)|
    ensures '\0' !in text ==> Kept(text) == text == CStr(text)
    ensures Kept(text) == CStr(text) <==> NulsTrail(text)
  {
    if text != "" {
      var n := |text| - 1;
      assert text == text[..n] + [text[n]];
      KeptOfTrailing(text[..n]);
      CStrLast(text[..n], text[n]);
      TrailingLast(text[..n], text[n]);
      KeptLast(text[..n], text[n]);
    }
  }

  lemma {:induction false} CStrOfPair(a: string, b: string)
    ensures CStr(a + b) == if '\0' in a then CStr(a) else a + CStr(b)
  {
    if '\0' in a {
      var i := Find(a, '\0');
      assert a + b == a[..i] + ['\0'] + (a[i + 1..] + b);
      FindAfterCleanText(a[..i], '\0', a[i + 1..] + b);
    } else if '\0' in b {
      var i := Find(b, '\0');
      assert a + b == (a + b[..i]) + ['\0'] + b[i + 1..];
      FindAfterCleanText(a + b[..i], '\0', b[i + 1..]);
    }
  }

  /**
   However the stream is cut, what arrives lies between the text before its first
   NUL, with which it begins, and the text without its NULs.
   */
  lemma {:induction false} BetweenTheCuttings(events: seq<string>)
    ensures CStr(Concat(events)) <= Received(events)
    ensures |Received(events)| <= |Kept(Concat(events))|
    ensures |Received(events)| == |Kept(Concat(events))| ==> Received(events) == Kept(Concat(events))
  {
    if events != [] {
      var init, last := events[..|events| - 1], events[|events| - 1];
      BetweenTheCuttings(init);
      StreamArrivesWhole(init);
      BetweenOneMore(Concat(init), Received(init), last);
    }
  }

  lemma {:induction false} BetweenOneMore(sent: string, received: string, event: string)
    requires CStr(sent) <= received && |received| <= |Kept(sent)| && ('\0' !in sent ==> received == sent)
    requires |received| == |Kept(sent)| ==> received == Kept(sent)
    ensures CStr(sent + event) <= received + CStr(event) && |received + CStr(event)| <= |Kept(sent + event)|
    ensures |received + CStr(event)| == |Kept(sent + event)| ==> received + CStr(event) == Kept(sent + event)
  {
    CStrOfPair(sent, event);
    KeptAppend(sent, event);
    OneCutting(event);
    if |received + CStr(event)| == |Kept(sent + event)| {
      assert |received| == |Kept(sent)| && |CStr(event)| == |Kept(event)|;
      assert CStr(event) == Kept(event);
    }
  }

  lemma {:induction false} OneCutting(text: string)
    ensures CStr(text) <= Kept(text)
  {
    if text != "" {
      var n := |text| - 1;
      OneCutting(text[..n]);
      assert text == text[..n] + [text[n]];
      CStrLast(text[..n], text[n]);
      KeptOfTrailing(text[..n]);
    }
  }

  function Characters(text: string): seq<string> {
    if text == "" then [] else Characters(text[..|text| - 1]) + [text[|text| - 1..]]
  }

  lemma {:induction false} CharacterByCharacter(text: string)
    ensures Concat(Characters(text)) == text && Received(Characters(text)) == Kept(text)
  {
    if text != "" {
      var n := |text| - 1;
      CharacterByCharacter(text[..n]);
      OneMoreEvent(Characters(text[..n]), text[n..]);
      assert text == text[..n] + text[n..];
      OneCharacter(text[n]);
      assert [text[n]] == text[n..];
    }
  }

  lemma {:induction false} OneMoreEvent(events: seq<string>, event: string)
    ensures Concat(events + [event]) == Concat(events) + event
    ensures Received(events + [event]) == Received(events) + CStr(event)
  {
    assert (events + [event])[..|events|] == events;
  }

  lemma {:induction false} OneCharacter(c: char)
    ensures CStr([c]) == if c == '\0' then "" else [c]
  {
    CStrLast("", c);
    assert "" + [c] == [c];
  }

  lemma {:induction false} InOnePiece(text: string)
    ensures Concat([text]) == text && Received([text]) == CStr(text)
  {
    assert [text][..0] == [];
  }

  /** What arrives is independent of how the stream is cut into events exactly when NULs stand only at its end. */
  lemma {:induction false} StreamIndependentOfCutting(text: string)
    ensures (forall a, b :: Concat(a) == text && Concat(b) == text ==> Received(a) == Received(b)) <==> NulsTrail(text)
  {
    KeptOfTrailing(text);
    if NulsTrail(text) {
      forall a, b | Concat(a) == text && Concat(b) == text
        ensures Received(a) == Received(b)
      {
        BetweenTheCuttings(a);
        BetweenTheCuttings(b);
      }
    } else {
      InOnePiece(text);
      CharacterByCharacter(text);
    }
  }

  /** Behind the first NUL only a comma is left, and none stands before it. */
  predicate OnlyACommaLost(text: string) {
    Kept(text) == CStr(text) + "," && !EndsWith(CStr(text), ',')
  }

  /**
   The output is independent of the cutting in one more case: the comma left behind
   is one the closing bracket replaces if it arrives.
   */
  lemma {:induction false} OutputIndependentOfCutting(text: string)
    ensures (forall a, b :: Concat(a) == text && Concat(b) == text ==> Output(a) == Output(b))
       <==> NulsTrail(text) || OnlyACommaLost(text)
  {
    if NulsTrail(text) || OnlyACommaLost(text) {
      forall a, b | Concat(a) == text && Concat(b) == text
        ensures Output(a) == Output(b)
      {
        CutSomehow(text, a);
        CutSomehow(text, b);
      }
    } else {
      TwoCuttings(text);
    }
  }

  lemma {:induction false} TwoCuttings(text: string)
    requires !NulsTrail(text) && !OnlyACommaLost(text)
    ensures Concat([text]) == text && Concat(Characters(text)) == text
    ensures Output([text]) != Output(Characters(text))
  {
    InOnePiece(text);
    CharacterByCharacter(text);
    OneCutting(text);
    KeptOfTrailing(text);
    ClosedDiffer(CStr(text), Kept(text));
  }

  lemma {:induction false} CutSomehow(text: string, events: seq<string>)
    requires Concat(events) == text
    requires NulsTrail(text) || OnlyACommaLost(text)
    ensures Output(events) == Close("[" + CStr(text))
  {
    KeptOfTrailing(text);
    BetweenTheCuttings(events);
    if |Received(events)| == |CStr(text)| {
      assert Received(events) == CStr(text);
    } else {
      CloseOverAComma(CStr(text));
    }
  }

  lemma {:induction false} CloseOverAComma(x: string)
    requires !EndsWith(x, ',')
    ensures Close("[" + (x + ",")) == Close("[" + x)
  {
    var text := "[" + (x + ",");
    assert text[..|text| - 1] == "[" + x;
  }

  lemma {:induction false} ClosedDiffer(x: string, y: string)
    requires x < y && !(y == x + "," && !EndsWith(x, ','))
    ensures Close("[" + x) != Close("[" + y)
  {
    if |y| == |x| + 1 && !EndsWith(x, ',') {
      assert y == x + y[|x|..];
    }
  }

  // ---------- records ----------

  /** Each record followed by a comma, as the request asks for. */
  function Delimited(records: seq<string>): string {
    if records == [] then "" else Delimited(records[..|records| - 1]) + records[|records| - 1] + ","
  }

  lemma {:induction false} DelimitedIsJoined(records: seq<string>)
    requires records != []
    ensures Delimited(records) == Join(records, ',') + ","
  {
    var init, last := records[..|records| - 1], records[|records| - 1];
    if init == [] {
      assert records == [last] && "" + last == last;
    } else {
      DelimitedIsJoined(init);
    }
  }

  /**
   For any records without NUL, however the stream of them is cut into events: the
   output is the bracketed comma-join of the records, and [] when there are none.
   */
  lemma ArrayOfRecords(records: seq<string>, events: seq<string>)
    requires Concat(events) == Delimited(records) && '\0' !in Delimited(records)
    ensures Output(events) == "[" + Join(records, ',') + "]"
  {
    StreamArrivesWhole(events);
    if records == [] {
      assert "[" + "" == "[";
    } else {
      DelimitedIsJoined(records);
      var text := "[" + Join(records, ',') + ",";
      assert "[" + Delimited(records) == text;
      assert text[..|text| - 1] == "[" + Join(records, ',');
    }
  }
}
