/** The parts of the Python runtime that the custom-object code relies on:
    exceptions, mutable lists and dictionaries (objects with identity, so that
    aliasing is visible), `str.split` with an explicit separator and
    `str(int)` for error messages. */
module Python {

  /** The exceptions the modelled code can raise. */
  datatype Error =
    | KeyError(key: string)
    | TypeError(message: string)
    | ValueError(message: string)
    | IndexError(message: string)
    | AttributeError(message: string)
    | FileNotFoundError(path: string)

  /** A value or the exception that the call raised instead. */
  datatype Result<+T> = Ok(value: T) | Err(error: Error)

  datatype Option<+T> = None | Some(value: T)

  /** A Python `list`: an object whose contents can be changed in place
      and that several names can refer to. */
  class PyList<T> {
    var items: seq<T>

    constructor (items: seq<T>)
      ensures this.items == items
    {
      this.items := items;
    }

    /** `l.append(x)` */
    method Append(x: T)
      modifies this
      ensures items == old(items) + [x]
    {
      items := items + [x];
    }

    /** `l += xs` (`l.extend(xs)`), with the elements of `xs` as they were
        before the call, also when `xs` is `l` itself. */
    method Extend(xs: seq<T>)
      modifies this
      ensures items == old(items) + xs
    {
      items := items + xs;
    }
  }

  /** A Python `dict` with string keys, an object like `PyList`. */
  class PyDict<V> {
    var entries: map<string, V>

    constructor (entries: map<string, V>)
      ensures this.entries == entries
    {
      this.entries := entries;
    }

    /** `d[key] = v` */
    method SetItem(key: string, v: V)
      modifies this
      ensures entries == old(entries)[key := v]
    {
      entries := entries[key := v];
    }

    /** `d.pop(key, default)`: removes the key and returns its value, or
        returns `default` when the key is absent. */
    method Pop(key: string, default: V) returns (v: V)
      modifies this
      ensures entries == old(entries) - {key}
      ensures v == if key in old(entries) then old(entries)[key] else default
    {
      v := if key in entries then entries[key] else default;
      entries := entries - {key};
    }
  }

  /** `s.split(sep)` for a one-character separator: the pieces between
      separators, empty ones included; never an empty list. */
  function Split(s: string, sep: char): (parts: seq<string>)
    ensures |parts| >= 1
    ensures forall i :: 0 <= i < |parts| ==> sep !in parts[i]
    decreases |s|
  {
    if |s| == 0 then [""]
    else
      var rest := Split(s[1..], sep);
      if s[0] == sep then [""] + rest
      else [[s[0]] + rest[0]] + rest[1..]
  }

  /** `sep.join(parts)`. */
  function Join(parts: seq<string>, sep: char): string
    requires |parts| >= 1
    decreases |parts|
  {
    if |parts| == 1 then parts[0] else parts[0] + [sep] + Join(parts[1..], sep)
  }

  /** Joining the pieces again gives back the string that was split. */
  lemma {:induction false} JoinSplit(s: string, sep: char)
    ensures Join(Split(s, sep), sep) == s
    decreases |s|
  {
    if |s| > 0 {
      var rest := Split(s[1..], sep);
      JoinSplit(s[1..], sep);
      if s[0] == sep {
        assert Split(s, sep) == [""] + rest;
        assert s == [sep] + s[1..];
      } else {
        var parts := Split(s, sep);
        assert parts == [[s[0]] + rest[0]] + rest[1..];
        if |rest| == 1 {
          assert s == [s[0]] + rest[0];
        } else {
          assert parts[1..] == rest[1..];
          assert Join(rest, sep) == rest[0] + [sep] + Join(rest[1..], sep);
          assert s == [s[0]] + s[1..];
        }
      }
    }
  }

  /** Splitting a join of separator-free pieces gives back the pieces. */
  lemma {:induction false} SplitJoin(parts: seq<string>, sep: char)
    requires |parts| >= 1
    requires forall i :: 0 <= i < |parts| ==> sep !in parts[i]
    ensures Split(Join(parts, sep), sep) == parts
    decreases |parts|, |parts[0]|
  {
    var head := parts[0];
    if |head| > 0 {
      var shorter := [head[1..]] + parts[1..];
      assert Join(shorter, sep) == (Join(parts, sep))[1..] by {
        if |parts| > 1 {
          assert shorter[1..] == parts[1..];
        }
      }
      assert head[0] != sep by { assert head[0] in head; }
      assert shorter[0] == head[1..];
      assert forall i :: 1 <= i < |shorter| ==> shorter[i] == parts[i];
      SplitJoin(shorter, sep);
      assert Join(parts, sep)[0] == head[0];
      assert [head[0]] + head[1..] == head;
    } else if |parts| > 1 {
      SplitJoin(parts[1..], sep);
      assert Join(parts, sep) == [sep] + Join(parts[1..], sep);
      assert Join(parts, sep)[1..] == Join(parts[1..], sep);
    }
  }

  /** The last piece of `s.split(sep)` is the suffix of `s` after its last
      separator, or all of `s` when it has none. */
  lemma {:induction false} LastPieceFollowsLastSeparator(s: string, sep: char)
    ensures var parts := Split(s, sep); var last := parts[|parts| - 1];
      |last| <= |s| && last == s[|s| - |last|..] &&
      (|last| < |s| ==> s[|s| - |last| - 1] == sep) &&
      (|parts| == 1 <==> |last| == |s|)
    decreases |s|
  {
    if |s| > 0 {
      var rest := Split(s[1..], sep);
      LastPieceFollowsLastSeparator(s[1..], sep);
      var parts := Split(s, sep);
      var last := parts[|parts| - 1];
      if s[0] == sep || |rest| > 1 {
        assert last == rest[|rest| - 1];
        assert s[1..][|s[1..]| - |last|..] == s[|s| - |last|..];
      } else {
        assert last == [s[0]] + rest[0];
        assert rest[0] == s[1..];
        assert s == [s[0]] + s[1..];
      }
    }
  }

  function DigitChar(d: nat): char
    requires d < 10
  {
    ('0' as int + d) as char
  }

  /** `str(n)` for a non-negative integer. */
  function NatToString(n: nat): string
    decreases n
  {
    if n < 10 then [DigitChar(n)] else NatToString(n / 10) + [DigitChar(n % 10)]
  }
}
