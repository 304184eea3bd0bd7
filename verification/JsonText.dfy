/** The string builder of json_stringify and the shared cursor of json_parse, in place. */
module JsonText {
  import opened Bytes
  import opened Doubles
  import J = Json

  /** StringBuilder: the text, a zero byte, and room to grow. */
  class StringBuilder {
    var data: array<byte>
    var length: nat

    ghost predicate Valid()
      reads this, data
    {
      length < data.Length && data[length] == 0
    }

    ghost function Contents(): seq<byte>
      reads this, data
      requires Valid()
    {
      data[..length]
    }

    /** sb_init. */
    constructor ()
      ensures Valid() && fresh(data) && Contents() == []
    {
      data := new byte[1024](_ => 0);
      length := 0;
    }

    /** The doubling loop of sb_append and the realloc behind it. */
    method Reserve(len: nat)
      requires Valid()
      modifies this`data
      ensures Valid() && (data == old(data) || fresh(data))
      ensures Contents() == old(Contents()) && length + len + 1 < data.Length
    {
      if length + len + 1 >= data.Length {
        var capacity := data.Length;
        while length + len + 1 >= capacity
          invariant capacity >= data.Length
          decreases length + len + 1 - capacity
        {
          capacity := capacity * 2;
        }
        var bigger := new byte[capacity](_ => 0);
        forall i | 0 <= i < length {
          bigger[i] := data[i];
        }
        data := bigger;
      }
    }

    /** sb_append: a C string up to its zero byte. */
    method Append(str: seq<byte>)
      requires Valid()
      modifies this, data
      ensures Valid() && (data == old(data) || fresh(data))
      ensures Contents() == old(Contents()) + UpToNul(str)
    {
      var s := UpToNul(str);
      Reserve(|s|);
      ghost var before := data[..length];
      forall i | 0 <= i < |s| {
        data[length + i] := s[i];
      }
      assert data[..length] == before;
      assert data[length..length + |s|] == s;
      assert data[..length + |s|] == data[..length] + data[length..length + |s|];
      length := length + |s|;
      data[length] := 0;
    }

    lemma OneByte(c: byte)
      requires c != 0
      ensures UpToNul([c]) == [c]
    {}

    method AppendByte(c: byte)
      requires Valid() && c != 0
      modifies this, data
      ensures Valid() && (data == old(data) || fresh(data))
      ensures Contents() == old(Contents()) + [c]
    {
      OneByte(c);
      Append([c]);
    }

    /** stringify_inner. */
    method Stringify(t: J.Tree, floats: J.Bits -> seq<byte>)
      requires Valid()
      modifies this, data
      ensures Valid() && (data == old(data) || fresh(data))
      ensures Contents() == old(Contents()) + J.Print(t, floats)
      decreases t, 1
    {
      match t
      case Null => Append(J.NULL);
      case Bool(b) => Append(if b then J.TRUE else J.FALSE);
      case Int(n) =>
        NoNul(n);
        Append(J.Decimal(n));
      case Float(bits) => Append(floats(bits));
      case Text(chars) => StringifyText(chars);
      case List(items) => StringifyList(items, floats);
      case Dict(entries) => StringifyDict(entries, floats);
    }

    method StringifyText(chars: seq<byte>)
      requires Valid()
      modifies this, data
      ensures Valid() && (data == old(data) || fresh(data))
      ensures Contents() == old(Contents()) + ([J.QUOTE] + UpToNul(chars) + [J.QUOTE])
    {
      hide UpToNul;
      AppendByte(J.QUOTE);
      Append(chars);
      AppendByte(J.QUOTE);
    }

    method StringifyList(items: seq<J.Tree>, floats: J.Bits -> seq<byte>)
      requires Valid()
      modifies this, data
      ensures Valid() && (data == old(data) || fresh(data))
      ensures Contents() == old(Contents()) + ([J.OPEN_LIST] + J.PrintItems(items, floats) + [J.CLOSE_LIST])
      decreases items, 1
    {
      hide J.PrintItems;
      AppendByte(J.OPEN_LIST);
      StringifyItems(items, floats);
      AppendByte(J.CLOSE_LIST);
    }

    method StringifyDict(entries: seq<J.Member>, floats: J.Bits -> seq<byte>)
      requires Valid()
      modifies this, data
      ensures Valid() && (data == old(data) || fresh(data))
      ensures Contents() == old(Contents()) + ([J.OPEN_DICT] + J.PrintEntries(entries, floats) + [J.CLOSE_DICT])
      decreases entries, 1
    {
      hide J.PrintEntries;
      AppendByte(J.OPEN_DICT);
      StringifyEntries(entries, floats);
      AppendByte(J.CLOSE_DICT);
    }

    lemma NoNul(n: int)
      ensures UpToNul(J.Decimal(n)) == J.Decimal(n)
    {
      assert forall c | c in J.Digits(Magnitude(n)) :: J.IsDigit(c);
    }

    /** The loop over an array: a comma after every item but the last. */
    method StringifyItems(items: seq<J.Tree>, floats: J.Bits -> seq<byte>)
      requires Valid()
      modifies this, data
      ensures Valid() && (data == old(data) || fresh(data))
      ensures Contents() == old(Contents()) + J.PrintItems(items, floats)
      decreases items, 0
    {
      hide J.Print;
      for i := 0 to |items|
        invariant Valid() && (data == old(data) || fresh(data))
        invariant Contents() + J.PrintItems(items[i..], floats) == old(Contents()) + J.PrintItems(items, floats)
      {
        ghost var before := Contents();
        ItemsFrom(before, items, i, floats);
        Stringify(items[i], floats);
        if i < |items| - 1 {
          AppendByte(J.COMMA);
        }
      }
      assert items[|items|..] == [];
    }

    lemma ItemsFrom(before: seq<byte>, items: seq<J.Tree>, i: nat, floats: J.Bits -> seq<byte>)
      requires i < |items|
      ensures before + J.PrintItems(items[i..], floats)
              == before + J.Print(items[i], floats)
                 + (if i < |items| - 1 then [J.COMMA] else []) + J.PrintItems(items[i + 1..], floats)
    {
      hide J.Print;
      assert items[i..][0] == items[i] && items[i..][1..] == items[i + 1..];
      if i == |items| - 1 {
        assert items[i + 1..] == [];
      }
    }

    /** The loop over a map: a comma before every entry but the first. */
    method StringifyEntries(entries: seq<J.Member>, floats: J.Bits -> seq<byte>)
      requires Valid()
      modifies this, data
      ensures Valid() && (data == old(data) || fresh(data))
      ensures Contents() == old(Contents()) + J.PrintEntries(entries, floats)
      decreases entries, 0
    {
      hide J.PrintEntry;
      var first := true;
      for i := 0 to |entries|
        invariant Valid() && (data == old(data) || fresh(data))
        invariant first <==> i == 0
        invariant Contents() + Comma(i, |entries|) + J.PrintEntries(entries[i..], floats)
                  == old(Contents()) + J.PrintEntries(entries, floats)
      {
        ghost var before := Contents();
        EntriesFrom(before + Comma(i, |entries|), entries, i, floats);
        if !first {
          AppendByte(J.COMMA);
        }
        assert Contents() == before + Comma(i, |entries|);
        StringifyEntry(entries[i], floats);
        first := false;
      }
      assert entries[|entries|..] == [];
    }

    function Comma(i: nat, n: nat): seq<byte> {
      if 0 < i < n then [J.COMMA] else []
    }

    lemma EntriesFrom(before: seq<byte>, entries: seq<J.Member>, i: nat, floats: J.Bits -> seq<byte>)
      requires i < |entries|
      ensures before + J.PrintEntries(entries[i..], floats)
              == before + J.PrintEntry(entries[i], floats) + Comma(i + 1, |entries|)
                 + J.PrintEntries(entries[i + 1..], floats)
    {
      hide J.PrintEntry;
      assert entries[i..][0] == entries[i] && entries[i..][1..] == entries[i + 1..];
      if i == |entries| - 1 {
        assert entries[i + 1..] == [];
      }
    }

    method StringifyEntry(e: J.Member, floats: J.Bits -> seq<byte>)
      requires Valid()
      modifies this, data
      ensures Valid() && (data == old(data) || fresh(data))
      ensures Contents() == old(Contents()) + J.PrintEntry(e, floats)
      decreases e, 0
    {
      hide J.Print;
      Stringify(e.key, floats);
      AppendByte(J.COLON);
      Stringify(e.value, floats);
    }
  }

  /** native_json_stringify. */
  method JsonStringify(t: J.Tree, floats: J.Bits -> seq<byte>) returns (text: seq<byte>)
    ensures text == J.Print(t, floats)
  {
    var sb := new StringBuilder();
    sb.Stringify(t, floats);
    text := sb.data[..sb.length];
  }

  /** The parser: text and the cursor that all its functions move. Its methods end wherever the parse
      ends at all; the fuel only bounds the number of steps. */
  class Reader {
    const text: seq<byte>
    const scan: J.Scanner
    var pos: nat

    ghost predicate Valid()
      reads this
    {
      pos <= |text| && J.Bounded(scan)
    }

    constructor (text: seq<byte>, scan: J.Scanner)
      requires J.Bounded(scan)
      ensures Valid() && this.text == text && this.scan == scan && pos == 0
    {
      this.text, this.scan, pos := text, scan, 0;
    }

    /** skip_space. */
    method SkipSpace()
      requires Valid()
      modifies this`pos
      ensures Valid() && pos == J.Skip(text, old(pos))
    {
      while pos < |text| && J.IsSpace(text[pos])
        invariant pos <= |text| && J.Skip(text, pos) == J.Skip(text, old(pos))
      {
        pos := pos + 1;
      }
    }

    /** parse_string. */
    method ParseString() returns (t: J.Tree)
      requires Valid() && pos < |text|
      modifies this`pos
      ensures Valid() && J.Done(t, pos) == J.ParseText(text, old(pos))
    {
      pos := pos + 1;
      var start := pos;
      while pos < |text| && text[pos] != J.QUOTE
        invariant start <= pos <= |text| && J.StringEnd(text, pos) == J.StringEnd(text, start)
      {
        pos := pos + 1;
      }
      t := J.Text(text[start..pos]);
      if pos < |text| {
        pos := pos + 1;
      }
    }

    method SkipComma()
      requires Valid()
      modifies this`pos
      ensures Valid() && pos == J.AfterComma(text, old(pos))
    {
      SkipSpace();
      if pos < |text| && text[pos] == J.COMMA {
        pos := pos + 1;
        SkipSpace();
      }
    }

    method SkipColon()
      requires Valid()
      modifies this`pos
      ensures Valid() && pos == J.AfterColon(text, old(pos))
    {
      SkipSpace();
      if pos < |text| && text[pos] == J.COLON {
        pos := pos + 1;
      }
      SkipSpace();
    }

    /** parse_number. */
    method ParseNumber() returns (t: J.Tree)
      requires Valid()
      modifies this`pos
      ensures Valid() && t == J.FromDouble(scan(text[old(pos)..]).0) && pos == old(pos) + scan(text[old(pos)..]).1
    {
      var (d, n) := scan(text[pos..]);
      pos := pos + n;
      t := J.FromDouble(d);
    }

    /** parse_array. */
    method ParseArray(ghost fuel: nat) returns (t: J.Tree)
      requires Valid() && pos < |text|
      requires J.ParseItems(scan, text, J.Skip(text, pos + 1), [], fuel).Done?
      modifies this`pos
      ensures Valid() && J.Done(t, pos) == J.ParseItems(scan, text, J.Skip(text, old(pos) + 1), [], fuel)
      decreases fuel, 0
    {
      hide J.ParseValue, J.AfterComma;
      pos := pos + 1;
      SkipSpace();
      var items: seq<J.Tree> := [];
      ghost var left: nat := fuel;
      while pos < |text| && text[pos] != J.CLOSE_LIST
        invariant Valid() && left <= fuel
        invariant J.ParseItems(scan, text, pos, items, left)
                  == J.ParseItems(scan, text, J.Skip(text, old(pos) + 1), [], fuel)
        decreases left
      {
        var v := ParseValue(left - 1);
        items := items + [v];
        SkipComma();
        left := left - 1;
      }
      if pos < |text| {
        pos := pos + 1;
      }
      t := J.List(items);
    }

    /** parse_object. */
    method ParseObject(ghost fuel: nat) returns (t: J.Tree)
      requires Valid() && pos < |text|
      requires J.ParseEntries(scan, text, J.Skip(text, pos + 1), [], fuel).Done?
      modifies this`pos
      ensures Valid() && J.Done(t, pos) == J.ParseEntries(scan, text, J.Skip(text, old(pos) + 1), [], fuel)
      decreases fuel, 0
    {
      hide J.ParseValue, J.AfterComma, J.AfterColon, J.SetMember;
      pos := pos + 1;
      SkipSpace();
      var entries: seq<J.Member> := [];
      ghost var left: nat := fuel;
      while pos < |text| && text[pos] != J.CLOSE_DICT
        invariant Valid() && left <= fuel
        invariant J.ParseEntries(scan, text, pos, entries, left)
                  == J.ParseEntries(scan, text, J.Skip(text, old(pos) + 1), [], fuel)
        decreases left
      {
        var key := ParseValue(left - 1);
        SkipColon();
        var value := ParseValue(left - 1);
        entries := J.SetMember(entries, key, value);
        SkipComma();
        left := left - 1;
      }
      if pos < |text| {
        pos := pos + 1;
      }
      t := J.Dict(entries);
    }

    /** parse_value. */
    method ParseValue(ghost fuel: nat) returns (t: J.Tree)
      requires Valid() && J.ParseValue(scan, text, pos, fuel).Done?
      modifies this`pos
      ensures Valid() && J.Done(t, pos) == J.ParseValue(scan, text, old(pos), fuel)
      decreases fuel, 1
    {
      hide J.ParseItems, J.ParseEntries, J.ParseText, J.Skip;
      SkipSpace();
      if pos == |text| {
        return J.Null;
      }
      var c := text[pos];
      if c == J.QUOTE {
        t := ParseString();
      } else if c == J.OPEN_LIST {
        t := ParseArray(fuel - 1);
      } else if c == J.OPEN_DICT {
        t := ParseObject(fuel - 1);
      } else if J.IsDigit(c) || c == J.MINUS {
        t := ParseNumber();
      } else if J.StartsWith(text, pos, J.TRUE) {
        pos := pos + 4;
        t := J.Bool(true);
      } else if J.StartsWith(text, pos, J.FALSE) {
        pos := pos + 5;
        t := J.Bool(false);
      } else {
        if J.StartsWith(text, pos, J.NULL) {
          pos := pos + 4;
        }
        t := J.Null;
      }
    }
  }

  /** native_json_parse, on text whose parse ends. */
  method JsonParse(text: seq<byte>, scan: J.Scanner, ghost fuel: nat) returns (r: J.Result)
    requires J.Bounded(scan) && !J.JsonParse(scan, text, fuel).Endless?
    ensures r == J.JsonParse(scan, text, fuel)
  {
    hide J.ParseValue;
    var reader := new Reader(text, scan);
    var t := reader.ParseValue(fuel);
    r := if t.Null? && reader.pos < |text| then J.Err else J.Ok(t);
  }

  /** Printing and parsing a clean value, end to end. */
  method ThereAndBack(t: J.Tree, floats: J.Bits -> seq<byte>, scan: J.Scanner) returns (r: J.Result)
    requires J.IsStrtod(scan) && J.Printable(t)
    ensures r == J.Ok(t)
  {
    hide J.Print, J.Printable, J.ReadsDecimals, J.ParseValue;
    var text := JsonStringify(t, floats);
    J.CleanTreesRoundTrip(scan, t, floats, J.Need(t));
    r := JsonParse(text, scan, J.Need(t));
  }
}
