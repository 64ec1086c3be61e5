/** Lines of a server-sent event stream (section 9.2.6 of the WHATWG HTML Living
    Standard), as the pumps read them: only `data` fields matter, one per line. */
module Sse {
  import opened Text

  const PREFIX := "data:"

  /** The end-of-stream sentinel, with white space allowed everywhere around it. */
  predicate IsDone(line: string) {
    var trimmed := TrimSpace(line);
    PREFIX <= trimmed && TrimSpace(trimmed[|PREFIX|..]) == "[DONE]"
  }

  /** The payload of a data line; none for other lines, empty data and the sentinel. */
  function Data(line: string): Option<string> {
    if !(PREFIX <= line) then None else
    var data := TrimSpace(line[|PREFIX|..]);
    if data == "" || data == "[DONE]" then None else Some(data)
  }

  // ---- trimming --------------------------------------------------------------------------

  predicate Spaces(s: string) {
    forall i :: 0 <= i < |s| ==> IsSpace(s[i])
  }

  /** Nothing is left to trim. */
  predicate Trimmed(s: string) {
    s != "" ==> !IsSpace(s[0]) && !IsSpace(s[|s| - 1])
  }

  lemma {:induction false} TrimLeftMeans(s: string) returns (a: string)
    ensures s == a + TrimLeft(s) && Spaces(a) && (TrimLeft(s) != "" ==> !IsSpace(TrimLeft(s)[0]))
  {
    hide IsSpace;
    a := "";
    if s != "" && IsSpace(s[0]) {
      var rest := TrimLeftMeans(s[1..]);
      a := [s[0]] + rest;
    }
  }

  lemma {:induction false} TrimRightMeans(s: string) returns (b: string)
    ensures s == TrimRight(s) + b && Spaces(b) && (TrimRight(s) != "" ==> !IsSpace(TrimRight(s)[|TrimRight(s)| - 1]))
  {
    hide IsSpace;
    b := "";
    if s != "" && IsSpace(s[|s| - 1]) {
      var rest := TrimRightMeans(s[..|s| - 1]);
      b := rest + [s[|s| - 1]];
    }
  }

  /** Trimming takes white space off both ends, and all of it. */
  lemma TrimMeans(s: string) returns (a: string, b: string)
    ensures s == a + TrimSpace(s) + b && Spaces(a) && Spaces(b) && Trimmed(TrimSpace(s))
  {
    hide IsSpace, TrimLeft, TrimRight, Spaces;
    a := TrimLeftMeans(s);
    b := TrimRightMeans(TrimLeft(s));
    assert TrimSpace(s) != "" ==> TrimSpace(s)[0] == TrimLeft(s)[0];
  }

  lemma {:induction false} TrimLeftOff(a: string, s: string)
    requires Spaces(a) && (s != "" ==> !IsSpace(s[0]))
    ensures TrimLeft(a + s) == s
    decreases |a|
  {
    hide IsSpace;
    if a == "" {
      assert a + s == s;
    } else {
      assert (a + s)[1..] == a[1..] + s;
      TrimLeftOff(a[1..], s);
    }
  }

  lemma {:induction false} TrimRightOff(s: string, b: string)
    requires Spaces(b) && (s != "" ==> !IsSpace(s[|s| - 1]))
    ensures TrimRight(s + b) == s
    decreases |b|
  {
    hide IsSpace;
    if b == "" {
      assert s + b == s;
    } else {
      var n := |b| - 1;
      assert (s + b)[..|s + b| - 1] == s + b[..n];
      TrimRightOff(s, b[..n]);
    }
  }

  lemma TrimExactly(a: string, core: string, b: string)
    requires Spaces(a) && Spaces(b) && Trimmed(core)
    ensures TrimSpace(a + core + b) == core
  {
    hide IsSpace, TrimLeft, TrimRight;
    if core == "" {
      assert a + core + b == (a + b) + "" && "" + "" == "";
      TrimLeftOff(a + b, "");
      TrimRightOff("", "");
    } else {
      assert a + core + b == a + (core + b);
      TrimLeftOff(a, core + b);
      TrimRightOff(core, b);
    }
  }

  lemma BlankMeans(s: string)
    ensures IsBlank(s) <==> Spaces(s)
  {
    hide TrimSpace, IsSpace;
    if IsBlank(s) {
      var a, b := TrimMeans(s);
      assert s == a + "" + b;
      SpacesJoin(a, b);
      assert s == a + b;
    }
    if Spaces(s) {
      assert "" + "" + s == s;
      TrimExactly("", "", s);
    }
  }

  // ---- what the two tests mean -------------------------------------------------------------

  /** A data line: the field name, at the very start, and the payload with white space around it. */
  predicate DataLine(line: string, a: string, payload: string, b: string) {
    line == "data:" + a + payload + b && Spaces(a) && Spaces(b) && Trimmed(payload)
  }

  /** Data is exactly what a data line carries, unless that is nothing or the sentinel. */
  lemma DataMeans(line: string, payload: string)
    ensures Data(line) == Some(payload) <==>
              payload != "" && payload != "[DONE]" && exists a, b :: DataLine(line, a, payload, b)
  {
    hide TrimSpace, IsSpace, Spaces, Trimmed;
    if Data(line) == Some(payload) {
      var a, b := TrimMeans(line[5..]);
      assert line == "data:" + line[5..];
      assert "data:" + (a + payload + b) == "data:" + a + payload + b;
      assert DataLine(line, a, payload, b);
    }
    if payload != "" && payload != "[DONE]" {
      if a, b :| DataLine(line, a, payload, b) {
        assert line == "data:" + (a + payload + b);
        assert line[5..] == a + payload + b;
        TrimExactly(a, payload, b);
      }
    }
  }

  predicate DoneLine(line: string, a: string, b: string, c: string) {
    line == a + "data:" + b + "[DONE]" + c && Spaces(a) && Spaces(b) && Spaces(c)
  }

  /** The sentinel line may have white space in three places. */
  lemma DoneMeans(line: string)
    ensures IsDone(line) <==> exists a, b, c :: DoneLine(line, a, b, c)
  {
    NamesAreTrimmed();
    hide TrimSpace, IsSpace;
    if IsDone(line) {
      var a, d := TrimMeans(line);
      var t := TrimSpace(line);
      var b, c := TrimMeans(t[5..]);
      hide Spaces, Trimmed;
      assert t == "data:" + t[5..];
      assert line == a + "data:" + b + "[DONE]" + (c + d);
      SpacesJoin(c, d);
      assert DoneLine(line, a, b, c + d);
    }
    if a, b, c :| DoneLine(line, a, b, c) {
      var t := "data:" + b + "[DONE]";
      assert line == a + t + c;
      assert t[0] == 'd' && t[|t| - 1] == ']';
      TrimExactly(a, t, c);
      assert t[5..] == b + "[DONE]" + "";
      TrimExactly(b, "[DONE]", "");
    }
  }

  lemma SpacesJoin(a: string, b: string)
    requires Spaces(a) && Spaces(b)
    ensures Spaces(a + b)
  {
    hide IsSpace;
  }

  lemma NamesAreTrimmed()
    ensures !IsSpace('d') && !IsSpace(']') && !IsSpace('[') && Trimmed("[DONE]")
  {
    assert "[DONE]"[0] == '[' && "[DONE]"[5] == ']';
  }

  /** The sentinel is never read as data, so the order of the two tests does not matter. */
  lemma SentinelIsNoData(line: string)
    ensures IsDone(line) ==> Data(line).None?
  {
    NamesAreTrimmed();
    hide TrimSpace, IsSpace;
    if IsDone(line) && PREFIX <= line {
      DoneMeans(line);
      var a, b, c :| DoneLine(line, a, b, c);
      assert line[0] == 'd';
      assert a == "";
      assert line[5..] == b + "[DONE]" + c;
      TrimExactly(b, "[DONE]", c);
    }
  }
}
