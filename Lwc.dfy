/** Values and operations shared by the components: optional values, the
    platform effects a handler emits (toasts, scrolling, message-channel
    publishing, navigation), and the JavaScript string and array operations
    the handlers rely on (`split` and `join` on one separator character,
    `filter` by value and by index, array indexing). */
module Lwc {

  /** A JavaScript value that may be `undefined` or `null` (both are `None`). */
  datatype Option<T> = None | Some(value: T)

  /** The `mode` of a `ShowToastEvent`. */
  datatype ToastMode = Dismissible | Sticky

  datatype Toast = Toast(title: string, message: string, variant: string, mode: ToastMode)

  /** A page reference handed to `NavigationMixin.Navigate`. */
  datatype PageRef =
    | KnowledgeArticlePage(pageName: string, urlName: string)
    | WebPage(url: string)
    | ObjectPage(recordId: string, objectApiName: string, actionName: string)

  /** The message published on the case-deflection message channel. */
  datatype Payload = Payload(modifiedField: string, modifiedFieldValue: string)

  /** What a handler asks the platform to do, in the order it asks. */
  datatype Effect =
    | ShowToast(toast: Toast)
    | ReportValidity(field: nat)
    | ScrollToTop
    | Publish(payload: Payload)
    | Navigate(page: PageRef)
    | Alert(message: string)

  /** `{ contentVersionId, name }` of one file reported by the upload control. */
  datatype UploadedFile = UploadedFile(contentVersionId: string, name: string)

  /** An entry `{ id, name }` of a component's `fileMap`. */
  datatype FileEntry = FileEntry(id: string, name: string)

  /** A record with `Id`, `Name` and `Email`, as returned by the list endpoints. */
  datatype ContactRecord = ContactRecord(Id: string, Name: string, Email: string)

  /** An option `{ label, value }` of a selection list (`label` is a Dafny keyword, hence `labelText`). */
  datatype SelectOption = SelectOption(labelText: string, value: string)

  // ---------------------------------------------------------------------
  // String.prototype.split and Array.prototype.join on one character
  // ---------------------------------------------------------------------

  /** Number of occurrences of `c` in `s`. */
  function Count(s: string, c: char): (n: nat)
    ensures n == 0 <==> c !in s
    ensures n <= |s|
  {
    if s == [] then 0 else (if s[0] == c then 1 else 0) + Count(s[1..], c)
  }

  /** `s.split(sep)`: the pieces between the occurrences of `sep`. Splitting
      the empty string gives one empty piece, as in JavaScript. */
  function Split(s: string, sep: char): (parts: seq<string>)
    ensures |parts| > 0
  {
    if s == [] then [""]
    else
      var rest := Split(s[1..], sep);
      if s[0] == sep then [""] + rest
      else [[s[0]] + rest[0]] + rest[1..]
  }

  /** `parts.join(sep)`: the parts with one separator between neighbours.
      The text holds no separator exactly when there is at most one part and
      that part holds none; a single part is its own join. */
  function Join(parts: seq<string>, sep: char): (s: string)
    ensures parts == [] ==> s == ""
    ensures |parts| == 1 ==> s == parts[0]
    ensures sep !in s <==> |parts| <= 1 && (|parts| == 1 ==> sep !in parts[0])
  {
    if |parts| == 0 then ""
    else if |parts| == 1 then parts[0]
    else parts[0] + [sep] + Join(parts[1..], sep)
  }

  /** Joining the pieces of a split with the same separator gives back the string. */
  lemma {:induction false} JoinSplit(s: string, sep: char)
    ensures Join(Split(s, sep), sep) == s
  {
    if s != [] {
      var rest := Split(s[1..], sep);
      JoinSplit(s[1..], sep);
      if s[0] == sep {
        assert Split(s, sep) == [""] + rest;
        assert ([""] + rest)[1..] == rest;
        assert Join([""] + rest, sep) == "" + [sep] + Join(rest, sep);
        assert s == [s[0]] + s[1..];
      } else {
        var parts := [[s[0]] + rest[0]] + rest[1..];
        assert Split(s, sep) == parts;
        if |rest| == 1 {
          assert Join(parts, sep) == [s[0]] + rest[0];
          assert Join(rest, sep) == rest[0];
        } else {
          assert parts[1..] == rest[1..];
          assert Join(parts, sep) == [s[0]] + rest[0] + [sep] + Join(rest[1..], sep);
          assert Join(rest, sep) == rest[0] + [sep] + Join(rest[1..], sep);
        }
        assert s == [s[0]] + s[1..];
      }
    }
  }

  /** A split yields one more piece than there are separators. */
  lemma {:induction false} SplitLength(s: string, sep: char)
    ensures |Split(s, sep)| == Count(s, sep) + 1
  {
    if s != [] {
      SplitLength(s[1..], sep);
    }
  }

  /** No piece of a split contains the separator. */
  lemma {:induction false} SplitPiecesFree(s: string, sep: char)
    ensures forall k :: 0 <= k < |Split(s, sep)| ==> sep !in Split(s, sep)[k]
  {
    if s != [] {
      SplitPiecesFree(s[1..], sep);
      var rest := Split(s[1..], sep);
      if s[0] != sep {
        assert sep !in rest[0];
        assert sep !in [s[0]] + rest[0];
      }
    }
  }

  /** A string without the separator splits into itself alone. */
  lemma {:induction false} SplitWithoutSep(s: string, sep: char)
    requires sep !in s
    ensures Split(s, sep) == [s]
  {
    if s != [] {
      SplitWithoutSep(s[1..], sep);
      assert s == [s[0]] + s[1..];
    }
  }

  /** The first occurrence of the separator ends the first piece. */
  lemma {:induction false} SplitAtFirstSep(a: string, b: string, sep: char)
    requires sep !in a
    ensures Split(a + [sep] + b, sep) == [a] + Split(b, sep)
  {
    var s := a + [sep] + b;
    if a == [] {
      assert s[0] == sep && s[1..] == b;
    } else {
      assert s[0] == a[0];
      assert s[1..] == a[1..] + [sep] + b;
      SplitAtFirstSep(a[1..], b, sep);
      assert a == [a[0]] + a[1..];
    }
  }

  /** Splitting a join of separator-free pieces gives back the pieces. */
  lemma {:induction false} SplitJoin(parts: seq<string>, sep: char)
    requires |parts| > 0
    requires forall k :: 0 <= k < |parts| ==> sep !in parts[k]
    ensures Split(Join(parts, sep), sep) == parts
  {
    if |parts| == 1 {
      SplitWithoutSep(parts[0], sep);
    } else {
      SplitJoin(parts[1..], sep);
      SplitAtFirstSep(parts[0], Join(parts[1..], sep), sep);
      assert parts == [parts[0]] + parts[1..];
    }
  }

  // ---------------------------------------------------------------------
  // Array operations
  // ---------------------------------------------------------------------

  /** `xs[index]`: `undefined` for an index outside the array. */
  function ElementAt<T>(xs: seq<T>, index: int): (r: Option<T>)
    ensures r.Some? <==> 0 <= index < |xs|
    ensures r.Some? ==> r.value == xs[index]
  {
    if 0 <= index < |xs| then Some(xs[index]) else None
  }

  /** `xs.filter(y => y !== x)`. */
  function RemoveAll(xs: seq<string>, x: string): (r: seq<string>)
    ensures x !in r
    ensures |r| <= |xs|
  {
    if xs == [] then []
    else (if xs[0] == x then [] else [xs[0]]) + RemoveAll(xs[1..], x)
  }

  /** Removing by value takes every copy of the removed value and leaves every
      other value as often as it was there. */
  lemma {:induction false} RemoveAllCounts(xs: seq<string>, x: string)
    ensures forall y :: y != x ==> multiset(RemoveAll(xs, x))[y] == multiset(xs)[y]
    ensures |RemoveAll(xs, x)| + multiset(xs)[x] == |xs|
  {
    if xs != [] {
      RemoveAllCounts(xs[1..], x);
      assert xs == [xs[0]] + xs[1..];
      assert multiset(xs) == multiset([xs[0]]) + multiset(xs[1..]);
    }
  }

  /** `xs.filter(y => y !== x)` with `x` possibly `undefined`, which no
      element equals: then nothing goes. Otherwise no copy of `x` is left and
      every other element is kept. */
  function RemoveAllOf(xs: seq<string>, x: Option<string>): (r: seq<string>)
    ensures x.None? ==> r == xs
    ensures x.Some? ==> x.value !in r && |r| <= |xs|
    ensures forall y :: y in xs && (x.None? || y != x.value) ==> y in r
  {
    match x
    case None => xs
    case Some(v) =>
      RemoveAllCounts(xs, v);
      assert forall y :: y in xs && y != v ==> multiset(RemoveAll(xs, v))[y] == multiset(xs)[y] > 0;
      RemoveAll(xs, v)
  }

  /** Removing by value keeps the order of what remains: it distributes over concatenation. */
  lemma {:induction false} RemoveAllAppend(a: seq<string>, b: seq<string>, x: string)
    ensures RemoveAll(a + b, x) == RemoveAll(a, x) + RemoveAll(b, x)
  {
    if a != [] {
      var head: seq<string> := if a[0] == x then [] else [a[0]];
      assert (a + b)[0] == a[0];
      assert (a + b)[1..] == a[1..] + b;
      assert RemoveAll(a + b, x) == head + RemoveAll(a[1..] + b, x);
      RemoveAllAppend(a[1..], b, x);
      assert RemoveAll(a, x) == head + RemoveAll(a[1..], x);
      assert head + (RemoveAll(a[1..], x) + RemoveAll(b, x)) == (head + RemoveAll(a[1..], x)) + RemoveAll(b, x);
    } else {
      assert a + b == b;
    }
  }

  /** Removing a value that is absent changes nothing. */
  lemma {:induction false} RemoveAllAbsent(xs: seq<string>, x: string)
    requires x !in xs
    ensures RemoveAll(xs, x) == xs
  {
    if xs != [] {
      RemoveAllAbsent(xs[1..], x);
      assert xs == [xs[0]] + xs[1..];
    }
  }

  /** `xs.filter((_, i) => i !== index)`: the element at `index` goes, the
      others stay in order; an index outside the array removes nothing. */
  function RemoveAt<T>(xs: seq<T>, index: int): (r: seq<T>)
    ensures 0 <= index < |xs| ==> r == xs[..index] + xs[index + 1..]
    ensures !(0 <= index < |xs|) ==> r == xs
  {
    if xs == [] then []
    else
      assert xs == [xs[0]] + xs[1..];
      (if index == 0 then [] else [xs[0]]) + RemoveAt(xs[1..], index - 1)
  }

  /** When the ids are distinct (server-assigned content-version ids are),
      removing the id at `index` by value removes exactly that entry, so
      `documents` and `filenames` stay parallel after a removal. */
  lemma {:induction false} RemovalKeepsListsParallel(documents: seq<string>, filenames: seq<string>, index: int)
    requires |documents| == |filenames|
    requires forall i, j :: 0 <= i < j < |documents| ==> documents[i] != documents[j]
    requires 0 <= index < |documents|
    ensures RemoveAll(documents, documents[index]) == documents[..index] + documents[index + 1..]
    ensures |RemoveAll(documents, documents[index])| == |RemoveAt(filenames, index)|
  {
    var x := documents[index];
    var a, b := documents[..index], documents[index + 1..];
    assert documents == a + [x] + b;
    assert x !in a by {
      forall i | 0 <= i < |a| ensures a[i] != x { assert a[i] == documents[i]; }
    }
    assert x !in b by {
      forall i | 0 <= i < |b| ensures b[i] != x { assert b[i] == documents[index + 1 + i]; }
    }
    RemoveAllAppend(a + [x], b, x);
    assert RemoveAll(documents, x) == RemoveAll(a + [x], x) + RemoveAll(b, x);
    RemoveAllAppend(a, [x], x);
    assert RemoveAll([x], x) == [] + RemoveAll([], x);
    RemoveAllAbsent(a, x);
    RemoveAllAbsent(b, x);
    assert RemoveAll(a + [x], x) == a;
  }

  // ---------------------------------------------------------------------
  // Upload bookkeeping and selection options
  // ---------------------------------------------------------------------

  /** The `contentVersionId` of each uploaded file, in order. */
  function VersionIds(files: seq<UploadedFile>): (ids: seq<string>)
    ensures |ids| == |files|
  {
    if files == [] then [] else VersionIds(files[..|files| - 1]) + [files[|files| - 1].contentVersionId]
  }

  /** The shown name of each uploaded file, `prefix + name`, in order. */
  function DisplayNames(files: seq<UploadedFile>, prefix: string): (names: seq<string>)
    ensures |names| == |files|
  {
    if files == [] then [] else DisplayNames(files[..|files| - 1], prefix) + [prefix + files[|files| - 1].name]
  }

  /** The `fileMap` entry of each uploaded file, in order. */
  function FileEntries(files: seq<UploadedFile>, prefix: string): (entries: seq<FileEntry>)
    ensures |entries| == |files|
  {
    if files == [] then []
    else
      var f := files[|files| - 1];
      FileEntries(files[..|files| - 1], prefix) + [FileEntry(f.contentVersionId, prefix + f.name)]
  }

  /** What one upload appends to `documents`, `filenames` and `fileMap` is
      parallel: entry `k` of the file map pairs the `k`-th id with the `k`-th name,
      and each comes from the `k`-th file. */
  lemma {:induction false} UploadParallel(files: seq<UploadedFile>, prefix: string)
    ensures forall k :: 0 <= k < |files| ==>
      && VersionIds(files)[k] == files[k].contentVersionId
      && DisplayNames(files, prefix)[k] == prefix + files[k].name
      && FileEntries(files, prefix)[k] == FileEntry(VersionIds(files)[k], DisplayNames(files, prefix)[k])
  {
    if files != [] {
      var init := files[..|files| - 1];
      UploadParallel(init, prefix);
      forall k | 0 <= k < |files| - 1
        ensures files[k] == init[k]
      {
      }
    }
  }

  /** The label `Name(Email)` of a record, with its `Id` as the value. */
  function ContactOption(c: ContactRecord): (o: SelectOption)
    ensures o.value == c.Id
    ensures o.labelText == c.Name + "(" + c.Email + ")"
  {
    SelectOption(c.Name + "(" + c.Email + ")", c.Id)
  }

  /** The `Name(Email)` option of each record, in order. */
  function ContactOptions(records: seq<ContactRecord>): (options: seq<SelectOption>)
    ensures |options| == |records|
    ensures forall i :: 0 <= i < |records| ==> options[i] == ContactOption(records[i])
  {
    if records == [] then []
    else ContactOptions(records[..|records| - 1]) + [ContactOption(records[|records| - 1])]
  }

  /** The `Name` and `Email` can be read back from the label when neither
      holds a `(`: the label is the name, `(`, and then the e-mail and `)`. */
  lemma ContactLabelSplit(c: ContactRecord)
    requires '(' !in c.Name && '(' !in c.Email
    ensures Split(ContactOption(c).labelText, '(') == [c.Name, c.Email + ")"]
  {
    assert ContactOption(c).labelText == c.Name + ['('] + (c.Email + ")");
    SplitAtFirstSep(c.Name, c.Email + ")", '(');
    assert '(' !in c.Email + ")";
    SplitWithoutSep(c.Email + ")", '(');
  }

  /** `event.key === 'Enter'`: the key-down handler of both case forms
      cancels the default action for the Enter key only. */
  function HandleKeyDown(key: string): (preventDefault: bool)
    ensures preventDefault <==> key == "Enter"
  {
    key == "Enter"
  }
}
