/** The flat namespace: one directory of files with six-digit names. */
module FlatNamespace {
  import opened Wrappers

  const ROOT_INO: nat := 1
  const OBJECTS_INO: nat := 2
  const FIRST_FILE_INO: nat := 100
  const MAX_FILES: nat := 1_000_000

  datatype Namespace = Namespace(inodeCount: nat, fileSize: nat)

  datatype FileKind = Dir | File

  datatype Attr = Attr(ino: nat, size: nat, kind: FileKind, mode: nat, nlink: nat)

  /** A directory entry; `cookie` is the offset that resumes the listing behind it. */
  datatype Entry = Entry(ino: nat, cookie: nat, kind: FileKind, name: string)

  /** Six digits are enough for every index. */
  predicate Valid(ns: Namespace) {
    ns.inodeCount < MAX_FILES
  }

  /** `new`: the configured count is clamped. */
  function New(inodeCount: nat, fileSize: nat): (ns: Namespace)
    ensures Valid(ns) && ns.fileSize == fileSize
    ensures inodeCount < 1_000_000 ==> ns.inodeCount == inodeCount
    ensures inodeCount >= 1_000_000 ==> ns.inodeCount == 999_999
  {
    Namespace(if inodeCount <= MAX_FILES - 1 then inodeCount else MAX_FILES - 1, fileSize)
  }

  // ---------------------------------------------------------------- names

  function Digit(d: nat): char
    requires d < 10
  {
    ('0' as int + d) as char
  }

  predicate IsDigit(c: char) {
    '0' <= c <= '9'
  }

  function DigitValue(c: char): nat
    requires IsDigit(c)
  {
    c as int - '0' as int
  }

  function Decimal(n: nat): string {
    if n < 10 then [Digit(n)] else Decimal(n / 10) + [Digit(n % 10)]
  }

  function Pad(s: string, width: nat): string
    decreases width - |s|
  {
    if |s| >= width then s else Pad("0" + s, width)
  }

  /** `format!("{n:06}")`. */
  function IndexToName(n: nat): string {
    Pad(Decimal(n), 6)
  }

  predicate AllDigits(s: string) {
    forall i | 0 <= i < |s| :: IsDigit(s[i])
  }

  function Value(s: string): nat
    requires AllDigits(s)
  {
    if s == [] then 0 else 10 * Value(s[..|s| - 1]) + DigitValue(s[|s| - 1])
  }

  function ParseName(ns: Namespace, name: string): Option<nat> {
    if |name| != 6 || !AllDigits(name) then None
    else if Value(name) < ns.inodeCount then Some(Value(name))
    else None
  }

  lemma {:induction false} DecimalValue(n: nat)
    ensures AllDigits(Decimal(n)) && Value(Decimal(n)) == n
  {
    if n >= 10 {
      DecimalValue(n / 10);
      assert Decimal(n)[..|Decimal(n)| - 1] == Decimal(n / 10);
    }
  }

  /** A number below 10^w has at most w digits. */
  lemma {:induction false} DecimalLength(n: nat, w: nat, limit: nat)
    requires w > 0 && limit == Power10(w) && n < limit
    ensures |Decimal(n)| <= w
    decreases w
  {
    if n >= 10 {
      DecimalLength(n / 10, w - 1, limit / 10);
    }
  }

  function Power10(w: nat): nat {
    if w == 0 then 1 else 10 * Power10(w - 1)
  }

  lemma {:induction false} LeadingZero(s: string)
    requires AllDigits(s)
    ensures AllDigits("0" + s) && Value("0" + s) == Value(s)
    decreases |s|
  {
    var z := "0" + s;
    if s == [] {
      assert z[..|z| - 1] == [];
    } else {
      LeadingZero(s[..|s| - 1]);
      assert z[..|z| - 1] == "0" + s[..|s| - 1];
    }
  }

  lemma {:induction false} PadValue(s: string, width: nat)
    requires AllDigits(s)
    ensures AllDigits(Pad(s, width)) && Value(Pad(s, width)) == Value(s)
    ensures |Pad(s, width)| == if |s| >= width then |s| else width
    decreases width - |s|
  {
    if |s| < width {
      LeadingZero(s);
      PadValue("0" + s, width);
    }
  }

  /** Digit strings of one length are determined by their value. */
  lemma {:induction false} ValueInjective(a: string, b: string)
    requires AllDigits(a) && AllDigits(b) && |a| == |b| && Value(a) == Value(b)
    ensures a == b
    decreases |a|
  {
    if a != [] {
      var n := |a| - 1;
      assert DigitValue(a[n]) == Value(a) % 10 == DigitValue(b[n]);
      ValueInjective(a[..n], b[..n]);
      assert a == a[..n] + [a[n]] && b == b[..n] + [b[n]];
    }
  }

  lemma NameShape(n: nat)
    requires n < MAX_FILES
    ensures |IndexToName(n)| == 6 && AllDigits(IndexToName(n)) && Value(IndexToName(n)) == n
  {
    DecimalValue(n);
    assert Power10(6) == 1_000_000;
    DecimalLength(n, 6, 1_000_000);
    PadValue(Decimal(n), 6);
  }

  /** Printing and parsing are inverse to each other on the indices in use, and no other name parses. */
  lemma NamesRoundTrip(ns: Namespace, name: string, n: nat)
    requires Valid(ns)
    ensures ParseName(ns, name) == Some(n) <==> n < ns.inodeCount && name == IndexToName(n)
  {
    if n < MAX_FILES {
      NameShape(n);
      if ParseName(ns, name) == Some(n) {
        ValueInjective(name, IndexToName(n));
      }
    }
  }

  lemma NestedQuotients(n: nat)
    ensures n / 100 == n / 10 / 10 && n / 1000 == n / 100 / 10
    ensures n / 10_000 == n / 1000 / 10 && n / 100_000 == n / 10_000 / 10
  {
  }

  lemma DigitsAddUp(n: nat)
    requires n < 1_000_000
    ensures n == 1000 * (n / 1000) + 100 * (n / 100 % 10) + 10 * (n / 10 % 10) + n % 10
    ensures n / 1000 == 100 * (n / 100_000 % 10) + 10 * (n / 10_000 % 10) + n / 1000 % 10
  {
    NestedQuotients(n);
  }

  /** The names are the six decimal digits of the index, leading zeros included. */
  lemma NameDigits(n: nat)
    requires n < 1_000_000
    ensures
      var digit := "0123456789";
      IndexToName(n) == [digit[n / 100_000 % 10], digit[n / 10_000 % 10], digit[n / 1000 % 10]] +
                        [digit[n / 100 % 10], digit[n / 10 % 10], digit[n % 10]]
  {
    NameShape(n);
    DigitsAddUp(n);
    NameOfDigits(IndexToName(n), n, n / 1000, n / 100_000 % 10, n / 10_000 % 10, n / 1000 % 10,
                 n / 100 % 10, n / 10 % 10, n % 10);
  }

  lemma NameOfDigits(name: string, n: nat, high: nat, a: nat, b: nat, c: nat, d: nat, e: nat, f: nat)
    requires a < 10 && b < 10 && c < 10 && d < 10 && e < 10 && f < 10
    requires |name| == 6 && AllDigits(name) && Value(name) == n
    requires n == 1000 * high + 100 * d + 10 * e + f && high == 100 * a + 10 * b + c
    ensures
      var digit := "0123456789";
      name == [digit[a], digit[b], digit[c]] + [digit[d], digit[e], digit[f]]
  {
    assert name[..6] == name;
    ThreeDigits(name, 3, high, d, e, f);
    ThreeDigits(name, 0, 0, a, b, c);
    assert name == name[0..3] + name[3..6];
  }

  lemma ThreeDigits(s: string, k: nat, before: nat, a: nat, b: nat, c: nat)
    requires AllDigits(s) && k + 3 <= |s| && a < 10 && b < 10 && c < 10
    requires Value(s[..k + 3]) == 1000 * before + 100 * a + 10 * b + c
    ensures Value(s[..k]) == before
    ensures s[k..k + 3] == ["0123456789"[a], "0123456789"[b], "0123456789"[c]]
  {
    LastDigit(s, k + 3, 100 * before + 10 * a + b, c);
    LastDigit(s, k + 2, 10 * before + a, b);
    LastDigit(s, k + 1, before, a);
  }

  /** The value of the first `k` digits yields the last of them, and the value of those before it. */
  lemma LastDigit(s: string, k: nat, before: nat, last: nat)
    requires AllDigits(s) && 0 < k <= |s| && last < 10 && Value(s[..k]) == 10 * before + last
    ensures s[k - 1] == "0123456789"[last] && Value(s[..k - 1]) == before
  {
    assert s[..k][..k - 1] == s[..k - 1];
    DigitInTable(s[k - 1]);
  }

  lemma DigitInTable(c: char)
    requires IsDigit(c)
    ensures c == "0123456789"[DigitValue(c)]
  {
  }

  // ---------------------------------------------------------------- lookup and attributes

  function InoToIndex(ns: Namespace, ino: nat): Option<nat> {
    if ino < FIRST_FILE_INO then None
    else if ino - FIRST_FILE_INO < ns.inodeCount then Some(ino - FIRST_FILE_INO)
    else None
  }

  function LookupName(ns: Namespace, parent: nat, name: string): Option<nat> {
    if parent == ROOT_INO then (if name == "objects" then Some(OBJECTS_INO) else None)
    else if parent == OBJECTS_INO then
      match ParseName(ns, name)
      case Some(n) => Some(FIRST_FILE_INO + n)
      case None => None
    else None
  }

  function AttrOf(ns: Namespace, ino: nat): Option<Attr> {
    if ino == ROOT_INO || ino == OBJECTS_INO then Some(Attr(ino, 0, Dir, 0x1ED, 2))
    else if InoToIndex(ns, ino).Some? then Some(Attr(ino, ns.fileSize, File, 0x1A4, 1))
    else None
  }

  /** The inodes with attributes are the root and everything that some lookup yields. */
  lemma AttrIffReachable(ns: Namespace, ino: nat)
    requires Valid(ns)
    ensures AttrOf(ns, ino).Some? <==>
            ino == ROOT_INO || exists parent, name :: LookupName(ns, parent, name) == Some(ino)
  {
    if ino == OBJECTS_INO {
      assert LookupName(ns, ROOT_INO, "objects") == Some(ino);
    } else if InoToIndex(ns, ino).Some? {
      var n := ino - FIRST_FILE_INO;
      NamesRoundTrip(ns, IndexToName(n), n);
      assert LookupName(ns, OBJECTS_INO, IndexToName(n)) == Some(ino);
    }
  }

  /** The root leads to `objects` alone, which leads to file `n` by its name; no other inode leads anywhere. */
  lemma LookupInWords(ns: Namespace, parent: nat, name: string, ino: nat)
    requires Valid(ns)
    ensures LookupName(ns, parent, name) == Some(ino) <==>
      || (parent == 1 && name == "objects" && ino == 2)
      || (parent == 2 && 100 <= ino < 100 + ns.inodeCount && name == IndexToName(ino - 100))
  {
    if ino >= FIRST_FILE_INO {
      NamesRoundTrip(ns, name, ino - FIRST_FILE_INO);
    }
  }

  // ---------------------------------------------------------------- listings

  function FileEntry(n: nat): Entry {
    Entry(FIRST_FILE_INO + n, n + 3, File, IndexToName(n))
  }

  /** The full listing of a directory; `None` for an inode that is not a directory. */
  function Listing(ns: Namespace, dir: nat): Option<seq<Entry>> {
    if dir == ROOT_INO then
      Some([Entry(ROOT_INO, 1, Dir, "."), Entry(ROOT_INO, 2, Dir, ".."), Entry(OBJECTS_INO, 3, Dir, "objects")])
    else if dir == OBJECTS_INO then
      Some([Entry(OBJECTS_INO, 1, Dir, "."), Entry(ROOT_INO, 2, Dir, "..")] +
           seq(ns.inodeCount, (n: nat) => FileEntry(n)))
    else None
  }

  /** The entries behind a cookie. */
  function After(listing: seq<Entry>, offset: nat): seq<Entry> {
    if offset <= |listing| then listing[offset..] else []
  }

  predicate CookiesCountEntries(listing: seq<Entry>) {
    forall i | 0 <= i < |listing| :: listing[i].cookie == i + 1
  }

  lemma CookiesCount(ns: Namespace, dir: nat)
    requires Listing(ns, dir).Some?
    ensures CookiesCountEntries(Listing(ns, dir).value)
  {
    if dir == OBJECTS_INO {
      forall k | 2 <= k < ns.inodeCount + 2 ensures Listing(ns, dir).value[k] == FileEntry(k - 2) {
        ObjectsListing(ns, k - 2);
      }
    }
  }

  /** Cookies count the entries, so cutting the list by position is cutting it by cookie. */
  lemma CutByCookie(ns: Namespace, dir: nat, offset: nat, e: Entry)
    requires Listing(ns, dir).Some?
    ensures
      var listing := Listing(ns, dir).value;
      e in After(listing, offset) <==> e in listing && e.cookie > offset
  {
    CookiesCount(ns, dir);
    AfterCookie(Listing(ns, dir).value, offset, e);
  }

  lemma AfterCookie(listing: seq<Entry>, offset: nat, e: Entry)
    requires CookiesCountEntries(listing)
    ensures e in After(listing, offset) <==> e in listing && e.cookie > offset
  {
    if e in listing && e.cookie > offset {
      var i :| 0 <= i < |listing| && listing[i] == e;
      assert After(listing, offset)[i - offset] == e;
    }
  }

  /** Entry `k` of a listing is a child with this name and inode; the first two entries are the dots. */
  predicate IsChild(listing: seq<Entry>, k: nat, name: string, ino: nat) {
    2 <= k < |listing| && listing[k].name == name && listing[k].ino == ino
  }

  lemma ObjectsListing(ns: Namespace, k: nat)
    requires k < ns.inodeCount
    ensures Listing(ns, OBJECTS_INO).Some? && |Listing(ns, OBJECTS_INO).value| == ns.inodeCount + 2
    ensures Listing(ns, OBJECTS_INO).value[k + 2] == FileEntry(k)
  {
  }

  lemma ObjectsAgree(ns: Namespace, name: string, ino: nat)
    requires Valid(ns)
    ensures LookupName(ns, OBJECTS_INO, name) == Some(ino) <==>
            exists k: nat :: IsChild(Listing(ns, OBJECTS_INO).value, k, name, ino)
  {
    var listing := Listing(ns, OBJECTS_INO).value;
    if LookupName(ns, OBJECTS_INO, name) == Some(ino) {
      var n := ino - FIRST_FILE_INO;
      NamesRoundTrip(ns, name, n);
      ObjectsListing(ns, n);
      assert IsChild(listing, n + 2, name, ino);
    }
    if k: nat :| IsChild(listing, k, name, ino) {
      ObjectsListing(ns, k - 2);
      NamesRoundTrip(ns, name, k - 2);
    }
  }

  /** A listing starts with the dots, and goes on with the children in order of their indices. */
  lemma ListingInWords(ns: Namespace, n: nat)
    ensures Listing(ns, 1) == Some([Entry(1, 1, Dir, "."), Entry(1, 2, Dir, ".."), Entry(2, 3, Dir, "objects")])
    ensures Listing(ns, 2).Some? && |Listing(ns, 2).value| == ns.inodeCount + 2
    ensures Listing(ns, 2).value[0] == Entry(2, 1, Dir, ".") && Listing(ns, 2).value[1] == Entry(1, 2, Dir, "..")
    ensures n < ns.inodeCount ==> Listing(ns, 2).value[n + 2] == Entry(100 + n, n + 3, File, IndexToName(n))
  {
    if n < ns.inodeCount {
      ObjectsListing(ns, n);
    }
  }

  /** `lookup` accepts exactly the listed names of children, with the listed inodes. */
  lemma ListingAgrees(ns: Namespace, dir: nat, name: string, ino: nat)
    requires Valid(ns)
    ensures LookupName(ns, dir, name) == Some(ino) <==>
      Listing(ns, dir).Some? && exists k: nat :: IsChild(Listing(ns, dir).value, k, name, ino)
  {
    if dir == ROOT_INO {
      var listing := Listing(ns, ROOT_INO).value;
      assert listing[2] == Entry(OBJECTS_INO, 3, Dir, "objects");
      if LookupName(ns, dir, name) == Some(ino) {
        assert IsChild(listing, 2, name, ino);
      }
    } else if dir == OBJECTS_INO {
      ObjectsAgree(ns, name, ino);
    }
  }

  /** Exactly the directories have listings, and every listed inode has attributes of the listed kind:
      the size and one link for files, two links for directories, and the permissions rw-r--r-- or rwxr-xr-x. */
  lemma AttributesAgree(ns: Namespace, dir: nat)
    requires Valid(ns)
    ensures Listing(ns, dir).Some? <==> AttrOf(ns, dir).Some? && AttrOf(ns, dir).value.kind == Dir
    ensures Listing(ns, dir).Some? ==> forall k | 0 <= k < |Listing(ns, dir).value| ::
      var e := Listing(ns, dir).value[k];
      AttrOf(ns, e.ino) == Some(
        if e.kind == Dir then Attr(e.ino, 0, Dir, 7 * 64 + 5 * 8 + 5, 2)
        else Attr(e.ino, ns.fileSize, File, 6 * 64 + 4 * 8 + 4, 1))
  {
    if dir == OBJECTS_INO {
      forall k | 2 <= k < ns.inodeCount + 2 ensures Listing(ns, dir).value[k] == FileEntry(k - 2) {
        ObjectsListing(ns, k - 2);
      }
    }
  }

  /** No two listed children share a name, an inode or a cookie. */
  lemma ChildrenDistinct(ns: Namespace, dir: nat, i: nat, j: nat)
    requires Valid(ns) && Listing(ns, dir).Some? && 2 <= i < j < |Listing(ns, dir).value|
    ensures
      var a, b := Listing(ns, dir).value[i], Listing(ns, dir).value[j];
      && a.name != b.name && a.ino != b.ino && a.cookie != b.cookie
      && a.name != "." && a.name != ".." && b.name != "." && b.name != ".."
  {
    assert dir == OBJECTS_INO;
    ObjectsListing(ns, i - 2);
    ObjectsListing(ns, j - 2);
    NameShape(i - 2);
    NameShape(j - 2);
  }
}
