/** Identifier utilities: tokens, upper case, and the mutual-fund code. */
module Utils {
  import opened Tokens

  datatype Result<+T> = Ok(value: T) | InvalidInput(message: string)

  /** toupper in the C locale. */
  function Upper(c: char): char {
    if 'a' <= c <= 'z' then c - 'a' + 'A' else c
  }

  function UpperAll(s: string): (r: string)
    ensures |r| == |s| && forall i :: 0 <= i < |s| ==> r[i] == Upper(s[i])
  {
    seq(|s|, i requires 0 <= i < |s| => Upper(s[i]))
  }

  method ToUpper(data: string) returns (result: string)
    ensures result == UpperAll(data)
  {
    result := data;
    for i := 0 to |data|
      invariant |result| == |data|
      invariant forall j :: 0 <= j < |data| ==> result[j] == if j < i then Upper(data[j]) else data[j]
    {
      result := result[i := Upper(result[i])];
    }
  }

  /** No lower-case letter is left, other characters are kept, and doing it twice is doing it once. */
  lemma UpperIsUpper(s: string)
    ensures forall i :: 0 <= i < |s| ==> !('a' <= UpperAll(s)[i] <= 'z')
    ensures forall i :: 0 <= i < |s| && !('a' <= s[i] <= 'z') ==> UpperAll(s)[i] == s[i]
    ensures forall i :: 0 <= i < |s| && 'a' <= s[i] <= 'z' ==> UpperAll(s)[i] as int == s[i] as int - 32
    ensures UpperAll(UpperAll(s)) == UpperAll(s)
  {
    forall i | 0 <= i < |s|
      ensures UpperAll(UpperAll(s))[i] == UpperAll(s)[i]
    {
    }
  }

  lemma SplitOneMore(s: string, pos: nat, d: char)
    requires pos < |s|
    ensures s[..pos + 1][..pos] == s[..pos] && s[..pos + 1][pos] == s[pos]
    ensures var init := Split(s[..pos], d);
      Split(s[..pos + 1], d) == if s[pos] == d then init + [""] else init[|init| - 1 := init[|init| - 1] + [s[pos]]]
  {
    assert s[..pos + 1][..pos] == s[..pos];
  }

  /** One getline: the text up to the next separator, which is consumed, or to the end. */
  method GetLine(data: string, start: nat, d: char, ghost tokens: seq<string>) returns (token: string, pos: nat)
    requires start < |data|
    requires Split(data[..start], d) == tokens + [""]
    ensures start < pos <= |data|
    ensures Lines(data[..pos], d) == tokens + [token]
    ensures pos < |data| ==> Split(data[..pos], d) == tokens + [token] + [""]
  {
    token, pos := "", start;
    while pos < |data| && data[pos] != d
      invariant start <= pos <= |data|
      invariant Split(data[..pos], d) == tokens + [token]
      invariant pos > start ==> token != ""
    {
      SplitOneMore(data, pos, d);
      assert (tokens + [token])[|tokens| := token + [data[pos]]] == tokens + [token + [data[pos]]];
      token, pos := token + [data[pos]], pos + 1;
    }
    if pos < |data| {
      SplitOneMore(data, pos, d);
      pos := pos + 1;
    }
  }

  /** The getline loop over the whole text. */
  method GetTokens(data: string, d: char) returns (tokens: seq<string>)
    ensures tokens == Lines(data, d)
  {
    tokens := [];
    var pos := 0;
    assert [] + [""] == [""];
    while pos < |data|
      invariant 0 <= pos <= |data|
      invariant Lines(data[..pos], d) == tokens
      invariant pos < |data| ==> Split(data[..pos], d) == tokens + [""]
    {
      var token: string;
      token, pos := GetLine(data, pos, d, tokens);
      tokens := tokens + [token];
    }
    assert data[..pos] == data;
  }

  method GetStringTokens(data: string) returns (tokens: seq<string>)
    ensures tokens == Lines(data, '_')
  {
    tokens := GetTokens(data, '_');
  }

  /** fund_us_aaaxc becomes AAAXC.US; anything but three tokens is refused. */
  method ConvertMutualFundSravzIDToCode(id: string) returns (r: Result<string>)
    ensures r == CodeOf(id)
  {
    var tokens := GetStringTokens(id);
    if |tokens| != 3 {
      return InvalidInput("Invalid SravzID: " + id + ". Cannot generate Code");
    }
    var code := ToUpper(tokens[2] + "." + tokens[1]);
    r := Ok(code);
  }

  function CodeOf(id: string): Result<string> {
    var tokens := Lines(id, '_');
    if |tokens| != 3 then InvalidInput("Invalid SravzID: " + id + ". Cannot generate Code")
    else Ok(UpperAll(tokens[2] + "." + tokens[1]))
  }

  /** Exactly the identifiers with two separators, or three of which the last ends the text, are accepted. */
  lemma AcceptedIdentifiers(id: string)
    ensures CodeOf(id).Ok? <==>
      (Count(id, '_') == 2 && !EndsWith(id, '_')) || (Count(id, '_') == 3 && EndsWith(id, '_'))
  {
    LinesThenJoin(id, '_');
  }

  lemma JoinThree(kind: string, market: string, name: string)
    ensures Join([kind, market, name], '_') == kind + "_" + market + "_" + name
  {
    var tokens := [kind, market, name];
    assert tokens[..2] == [kind, market] && [kind, market][..1] == [kind];
    assert Join([kind, market], '_') == kind + "_" + market;
  }

  /**
   For every kind, market and name free of separators: a trailing separator is
   ignored, and only an empty name needs it.
   */
  lemma CodeOfAnIdentifier(kind: string, market: string, name: string)
    requires Clean([kind, market, name], '_')
    ensures name != "" ==> CodeOf(kind + "_" + market + "_" + name) == Ok(UpperAll(name) + "." + UpperAll(market))
    ensures name == "" ==> CodeOf(kind + "_" + market + "_" + name).InvalidInput?
    ensures CodeOf(kind + "_" + market + "_" + name + "_") == Ok(UpperAll(name) + "." + UpperAll(market))
  {
    var tokens := [kind, market, name];
    var id := kind + "_" + market + "_" + name;
    JoinThree(kind, market, name);
    JoinThenSplit(tokens, '_');
    assert (id + "_")[..|id|] == id;
    assert Split(id + "_", '_') == tokens + [""];
    assert UpperAll(name + "." + market) == UpperAll(name) + "." + UpperAll(market);
  }

  /** And every accepted identifier is one of these. */
  lemma AcceptedIsAnIdentifier(id: string) returns (kind: string, market: string, name: string)
    requires CodeOf(id).Ok?
    ensures Clean([kind, market, name], '_')
    ensures id == kind + "_" + market + "_" + name || id == kind + "_" + market + "_" + name + "_"
    ensures CodeOf(id) == Ok(UpperAll(name) + "." + UpperAll(market))
  {
    var tokens := Lines(id, '_');
    kind, market, name := tokens[0], tokens[1], tokens[2];
    SplitThenJoin(id, '_');
    LinesThenJoin(id, '_');
    assert tokens == [kind, market, name];
    JoinThree(kind, market, name);
    assert Clean(tokens, '_') by {
      assert forall i :: 0 <= i < |tokens| ==> tokens[i] == Split(id, '_')[i];
    }
    CodeOfAnIdentifier(kind, market, name);
    if EndsWith(id, '_') {
      assert id == id[..|id| - 1] + "_";
    }
  }
}
