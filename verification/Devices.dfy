/** Telling whether a device may be formatted, and how large LVM displays it. */
module Devices {
  import opened Wrappers
  import opened Keys
  import opened Rounding

  predicate IsSpace(c: char) {
    var code := c as int;
    || 0x9 <= code <= 0xd || code == 0x20 || code == 0x85 || code == 0xa0
    || code == 0x1680 || 0x2000 <= code <= 0x200a || code == 0x2028 || code == 0x2029
    || code == 0x202f || code == 0x205f || code == 0x3000
  }

  function TrimLeft(s: string): string {
    if s != "" && IsSpace(s[0]) then TrimLeft(s[1..]) else s
  }

  function TrimRight(s: string): string {
    if s != "" && IsSpace(s[|s| - 1]) then TrimRight(s[..|s| - 1]) else s
  }

  function TrimSpace(s: string): string {
    TrimRight(TrimLeft(s))
  }

  predicate AllSpaces(s: string) {
    forall i | 0 <= i < |s| :: IsSpace(s[i])
  }

  lemma {:induction false} TrimLeftExactly(a: string, t: string)
    requires AllSpaces(a) && (t == "" || !IsSpace(t[0]))
    ensures TrimLeft(a + t) == t
  {
    hide IsSpace;
    if a == "" {
      assert a + t == t;
    } else {
      assert (a + t)[1..] == a[1..] + t;
      TrimLeftExactly(a[1..], t);
    }
  }

  lemma {:induction false} TrimRightExactly(t: string, b: string)
    requires AllSpaces(b) && (t == "" || !IsSpace(t[|t| - 1]))
    ensures TrimRight(t + b) == t
  {
    hide IsSpace;
    if b == "" {
      assert t + b == t;
    } else {
      assert (t + b)[..|t + b| - 1] == t + b[..|b| - 1];
      TrimRightExactly(t, b[..|b| - 1]);
    }
  }

  /** Spaces around a text go, and nothing else does. */
  lemma TrimSpaceExactly(a: string, t: string, b: string)
    requires AllSpaces(a) && AllSpaces(b) && (t == "" || (!IsSpace(t[0]) && !IsSpace(t[|t| - 1])))
    ensures TrimSpace(a + t + b) == t
  {
    hide IsSpace;
    if t == "" {
      assert a + t + b == (a + b) + "";
      TrimLeftExactly(a + b, "");
      assert TrimRight("") == "";
    } else {
      assert a + t + b == a + (t + b);
      TrimLeftExactly(a, t + b);
      TrimRightExactly(t, b);
    }
  }

  function Fields(line: string): seq<string> {
    Split(TrimSpace(line), '=')
  }

  function Lines(output: string): seq<string> {
    Split(output, '\n')
  }

  /** The scan over blkid's lines. */
  function ScanLines(lines: seq<string>): Result<string> {
    if lines == [] then Err("parse")
    else if |Fields(lines[0])| != 2 then Err("parse")
    else if Fields(lines[0])[0] == "TYPE" then Ok(Fields(lines[0])[1])
    else ScanLines(lines[1..])
  }

  /** The file system type found from the outputs of `file` and `blkid`; `None` is a failed command,
      and the type is empty when there is none. */
  function CheckFSType(file: Option<string>, blkid: Option<string>): Result<string> {
    if file.None? then Err("file")
    else if TrimSpace(file.value) == "data" then Ok("")
    else if blkid.None? then Err("blkid")
    else ScanLines(Lines(blkid.value))
  }

  /** Line `i` is the first to name the type, it names `t`, and every line before is a pair. */
  predicate FirstType(lines: seq<string>, i: int, t: string) {
    && 0 <= i < |lines|
    && Fields(lines[i]) == ["TYPE", t]
    && forall j | 0 <= j < i :: |Fields(lines[j])| == 2 && Fields(lines[j])[0] != "TYPE"
  }

  lemma {:induction false} ScanFindsFirstType(lines: seq<string>, t: string)
    ensures ScanLines(lines) == Ok(t) <==> exists i :: FirstType(lines, i, t)
  {
    hide Fields;
    if lines != [] {
      var rest := lines[1..];
      ScanFindsFirstType(rest, t);
      if ScanLines(lines) == Ok(t) {
        if Fields(lines[0])[0] == "TYPE" {
          assert FirstType(lines, 0, t);
        } else {
          var i :| FirstType(rest, i, t);
          assert FirstType(lines, i + 1, t);
        }
      }
      if i :| FirstType(lines, i, t) {
        if i > 0 {
          assert |Fields(lines[0])| == 2;
          assert FirstType(rest, i - 1, t);
        }
      }
    }
  }

  /** A device is taken for blank, and will be formatted, exactly when `file` sees plain data or the
      first type that blkid names is empty. */
  lemma BlankExactlyWhen(file: Option<string>, blkid: Option<string>)
    ensures CheckFSType(file, blkid) == Ok("") <==>
            file.Some? && (TrimSpace(file.value) == "data"
                           || (blkid.Some? && exists i :: FirstType(Lines(blkid.value), i, "")))
  {
    if blkid.Some? {
      ScanFindsFirstType(Lines(blkid.value), "");
    }
  }

  /** A device for which `file` prints "data" among spaces, such as the line's own end, is blank, whatever
      `blkid` says. */
  lemma DataIsBlank(a: string, b: string, blkid: Option<string>)
    requires AllSpaces(a) && AllSpaces(b)
    ensures CheckFSType(Some(a + "data" + b), blkid) == Ok("")
  {
    TrimSpaceExactly(a, "data", b);
  }

  /** For instance with tabs and a carriage return. */
  lemma DataAmongSpaces()
    ensures CheckFSType(Some(" \t" + "data" + "\r\n"), None) == Ok("")
  {
    assert AllSpaces(" \t") && AllSpaces("\r\n");
    DataIsBlank(" \t", "\r\n", None);
  }

  /** What `file` and `blkid` print names this type of file system: not plain data, and a first type. */
  predicate NamesType(file: string, blkid: string, fs: string) {
    && fs != "" && TrimSpace(file) != "data"
    && exists i | 0 <= i < |Lines(blkid)| :: FirstType(Lines(blkid), i, fs)
  }

  /** A device with such outputs is recognised, so it is never taken for blank. */
  lemma FormattedIsRecognised(file: string, blkid: string, fs: string)
    requires NamesType(file, blkid, fs)
    ensures CheckFSType(Some(file), Some(blkid)) == Ok(fs)
  {
    ScanFindsFirstType(Lines(blkid), fs);
  }

  lemma TrimNothing(s: string)
    requires s != "" && !IsSpace(s[0]) && !IsSpace(s[|s| - 1])
    ensures TrimSpace(s) == s
  {
  }

  /** A line of blkid's export format. */
  lemma PairLine(name: string, value: string)
    requires name != "" && value != "" && '=' !in name && '=' !in value
    requires !IsSpace(name[0]) && !IsSpace(value[|value| - 1])
    ensures Fields(name + "=" + value) == [name, value]
  {
    var line := name + "=" + value;
    TrimNothing(line);
    assert line == name + ['='] + value;
    SplitAtSeparator(name, value, '=');
    SplitWithoutSeparator(value, '=');
  }

  lemma TwoLines(first: string, second: string)
    requires '\n' !in first && '\n' !in second
    ensures Lines(first + "\n" + second + "\n") == [first, second, ""]
  {
    hide Split;
    assert first + "\n" + second + "\n" == first + ['\n'] + (second + ['\n'] + "");
    SplitAtSeparator(first, second + ['\n'] + "", '\n');
    SplitAtSeparator(second, "", '\n');
    SplitWithoutSeparator("", '\n');
  }

  /** For instance, `blkid` names the device first and the type second. */
  lemma ExportNamesType(device: string, fs: string)
    requires device != "" && '=' !in device && '\n' !in device && !IsSpace(device[|device| - 1])
    requires fs != "" && '=' !in fs && '\n' !in fs && !IsSpace(fs[|fs| - 1])
    ensures NamesType(fs + " filesystem", ("DEVNAME" + "=" + device) + "\n" + ("TYPE" + "=" + fs) + "\n", fs)
  {
    hide Lines, Fields, TrimSpace, Split;
    var first, second := "DEVNAME" + "=" + device, "TYPE" + "=" + fs;
    NotData(fs);
    TwoLines(first, second);
    PairLine("DEVNAME", device);
    PairLine("TYPE", fs);
    assert "DEVNAME"[0] == 'D' && "TYPE"[0] == 'T';
    assert FirstType([first, second, ""], 1, fs);
  }

  lemma {:induction false} NotData(fs: string)
    ensures TrimSpace(fs + " filesystem") != "data"
  {
    var file := fs + " filesystem";
    assert file[|file| - 1] == 'm';
    TrimLeftKeepsEnd(file);
    assert "data"[3] == 'a';
  }

  lemma {:induction false} TrimLeftKeepsEnd(s: string)
    requires s != "" && !IsSpace(s[|s| - 1])
    ensures var t := TrimLeft(s); t != "" && t[|t| - 1] == s[|s| - 1]
  {
    if IsSpace(s[0]) {
      TrimLeftKeepsEnd(s[1..]);
    }
  }

  const PIB := 0x4_0000_0000_0000

  /** The number `lvdisplay` prints before its unit, without the fraction: the unit is the largest
      one that leaves at least 1. */
  function DisplayedNumber(bytes: nat): nat {
    if bytes < MIB then bytes / 1024
    else if bytes < GIB then bytes / MIB
    else if bytes < TIB then bytes / GIB
    else if bytes < PIB then bytes / TIB
    else bytes / PIB
  }

  /** The driver compares that number with the size it would ask for, whatever the units. For a volume
      it carved itself the comparison says "large enough" exactly below 1021 MiB and from one GiB up
      to one TiB; elsewhere the volume seems too small. */
  lemma DisplayComparesExactly(capacity: nat)
    requires MIB <= capacity
    ensures DisplayedNumber(CarvedBytes(capacity)) >= PvSize(capacity).0
            <==> capacity < 1021 * MIB || GIB <= capacity < TIB
  {
    var bytes := CarvedBytes(capacity);
    if capacity < GIB {
      CarvedMegabytes(capacity / MIB);
    } else {
      CarvedGigabytes(capacity / GIB);
    }
  }

  lemma CarvedMegabytes(amount: nat)
    requires 1 <= amount < 1024
    ensures var bytes := CeilDiv(amount * MIB, EXTENT) * EXTENT;
            && amount * MIB <= bytes
            && (amount < 1021 ==> bytes < GIB)
            && (amount >= 1021 ==> bytes == GIB)
  {
    assert amount * MIB == EXTENT * (amount / 4) + (amount % 4) * MIB;
  }

  lemma CarvedGigabytes(amount: nat)
    ensures CeilDiv(amount * GIB, EXTENT) * EXTENT == amount * GIB
  {
    assert amount * GIB == EXTENT * (256 * amount) + 0;
    DivisionIsUnique(amount * GIB, EXTENT, 256 * amount, 0);
  }
}
