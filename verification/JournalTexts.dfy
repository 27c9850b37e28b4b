/** The JSON text of the two transaction journals, whose lengths the limits are about. */
module JournalTexts {
  import opened Containers
  import opened Effects
  import opened JsonText
  import opened Sequences
  import P = PackageTransactions
  import W = WorkspaceTransactions

  /** A member of an object, without its value. */
  function Key(name: string): string {
    "\"" + name + "\": "
  }

  function Pair(i: Inode): string {
    "[" + Decimal(i.device) + ", " + Decimal(i.number) + "]"
  }

  lemma PairLength(i: Inode)
    ensures |Pair(i)| == Digits(i.device) + Digits(i.number) + 4
  {
    DecimalLength(i.device);
    DecimalLength(i.number);
  }

  // ---------------------------------------------------------------- workspace files

  /** `sha` gives the hexadecimal digest of a content. */
  function VersionText(v: W.Version, sha: Bytes -> string): string {
    "{" + Key("digest") + StringText(sha(v.content)) + ", " + Key("identity") + Pair(v.identity) + ", "
    + Key("mode") + Decimal(v.mode) + ", " + Key("size") + Decimal(|v.content|) + "}"
  }

  function MaybeText(v: Option<W.Version>, sha: Bytes -> string): string {
    if v.Some? then VersionText(v.value, sha) else "null"
  }

  function VersionsText(c: W.Change, sha: Bytes -> string): string {
    Key("after") + VersionText(c.after, sha) + ", " + Key("backup") + MaybeText(c.backup, sha) + ", "
    + Key("before") + MaybeText(c.before, sha)
  }

  function PlacesText(c: W.Change): string {
    Key("container") + StringText(W.Posix(c.box)) + ", " + Key("container_identity") + Pair(c.boxIdentity) + ", "
    + Key("path") + StringText(W.Posix(c.path))
  }

  function ChangeText(c: W.Change, sha: Bytes -> string): string {
    "{" + VersionsText(c, sha) + ", " + PlacesText(c) + "}"
  }

  function ChangesText(cs: seq<W.Change>, sha: Bytes -> string): string {
    if cs == [] then ""
    else ChangesText(cs[..|cs| - 1], sha) + (if |cs| > 1 then ", " else "") + ChangeText(cs[|cs| - 1], sha)
  }

  function StatusText(status: W.Status): string {
    match status
    case Pending => "\"pending\""
    case Committed => "\"committed\""
    case RolledBack => "\"rolled_back\""
  }

  function RootText(root: W.Root): string {
    Key("root") + StringText(root.location) + ", " + Key("root_identity") + Pair(root.identity)
  }

  /** An object of three parts. */
  function Parts(a: string, b: string, c: string): (t: string)
    ensures |t| == |a| + |b| + |c| + 6
  {
    "{" + a + ", " + b + ", " + c + "}"
  }

  function ListText(r: W.Record, sha: Bytes -> string): string {
    Key("changes") + "[" + ChangesText(r.changes, sha) + "]"
  }

  function FinalText(r: W.Record): string {
    Key("schema") + "1, " + Key("status") + StatusText(r.status)
  }

  function RecordText(r: W.Record, sha: Bytes -> string): string {
    Parts(ListText(r, sha), RootText(r.root), FinalText(r))
  }

  /** A SHA-256 digest in hexadecimal. */
  ghost predicate Digests(sha: Bytes -> string) {
    forall b :: |sha(b)| == 64 && Plain(sha(b))
  }

  lemma VersionTextLength(v: W.Version, sha: Bytes -> string)
    requires Digests(sha)
    ensures |VersionText(v, sha)| == W.VersionLength(v)
  {
    StringLength(sha(v.content));
    PlainLength(sha(v.content));
    PairLength(v.identity);
    DecimalLength(v.mode);
    DecimalLength(|v.content|);
  }

  lemma VersionsTextLength(c: W.Change, sha: Bytes -> string)
    requires Digests(sha)
    ensures |VersionsText(c, sha)| == W.VersionLength(c.after) + |MaybeText(c.backup, sha)| + |MaybeText(c.before, sha)| + 33
  {
    VersionTextLength(c.after, sha);
  }

  lemma PlacesTextLength(c: W.Change)
    ensures |PlacesText(c)| == Quoted(W.Posix(c.box)) + Quoted(W.Posix(c.path)) + W.InodeLength(c.boxIdentity) + 51
  {
    StringLength(W.Posix(c.box));
    StringLength(W.Posix(c.path));
    PairLength(c.boxIdentity);
  }

  lemma ChangeTextLength(c: W.Change, sha: Bytes -> string)
    requires Digests(sha)
    ensures |ChangeText(c, sha)| == W.ChangeLength(c)
  {
    VersionsTextLength(c, sha);
    PlacesTextLength(c);
    if c.backup.Some? { VersionTextLength(c.backup.value, sha); }
    if c.before.Some? { VersionTextLength(c.before.value, sha); }
  }

  lemma {:induction false} ChangesTextLength(cs: seq<W.Change>, sha: Bytes -> string)
    requires Digests(sha)
    ensures |ChangesText(cs, sha)| == W.ChangesLength(cs)
  {
    if cs != [] {
      ChangesTextLength(cs[..|cs| - 1], sha);
      ChangeTextLength(cs[|cs| - 1], sha);
    }
  }

  lemma RootTextLength(root: W.Root)
    ensures |RootText(root)| == Quoted(root.location) + W.InodeLength(root.identity) + 31
  {
    StringLength(root.location);
    PairLength(root.identity);
  }

  lemma ListTextLength(r: W.Record, sha: Bytes -> string)
    requires Digests(sha)
    ensures |ListText(r, sha)| == W.ChangesLength(r.changes) + 13
  {
    ChangesTextLength(r.changes, sha);
  }

  lemma FinalTextLength(r: W.Record)
    ensures |FinalText(r)| == |W.Word(r.status)| + 25
  {
  }

  /** The length that `Save` compares with the limit is that of the text. */
  lemma RecordTextLength(r: W.Record, sha: Bytes -> string)
    requires Digests(sha)
    ensures |RecordText(r, sha)| == W.Length(r)
    ensures W.Legible(r) <==> |RecordText(r, sha)| <= 4 * 1024 * 1024
  {
    ListTextLength(r, sha);
    RootTextLength(r.root);
    FinalTextLength(r);
  }

  // ---------------------------------------------------------------- packages

  function DigestText(tree: Option<P.Tree>, sha: P.Tree -> string): string {
    if tree.Some? then StringText(sha(tree.value)) else "null"
  }

  function SwapText(c: P.Change, sha: P.Tree -> string): string {
    "{" + Key("after") + DigestText(c.after, sha) + ", " + Key("before") + DigestText(c.before, sha) + ", "
    + Key("container") + StringText(c.box) + ", " + Key("device") + Decimal(c.identity.device) + ", "
    + Key("inode") + Decimal(c.identity.number) + ", " + Key("name") + StringText(c.name) + "}"
  }

  function SwapsText(cs: seq<P.Change>, sha: P.Tree -> string): string {
    if cs == [] then ""
    else SwapsText(cs[..|cs| - 1], sha) + (if |cs| > 1 then ", " else "") + SwapText(cs[|cs| - 1], sha)
  }

  function ReceiptText(receipt: Option<P.Receipt>): string {
    if receipt.Some? then "\"" + Base64Of(receipt.value) + "\"" else "null"
  }

  function ReceiptsText(r: P.Record): string {
    Key("after") + ReceiptText(Some(r.after)) + ", " + Key("before") + ReceiptText(r.before)
  }

  function SwapListText(r: P.Record, sha: P.Tree -> string): string {
    Key("changes") + "[" + SwapsText(r.changes, sha) + "]"
  }

  function StateText(r: P.Record): string {
    Key("committed") + (if r.committed then "true" else "false") + ", " + Key("location") + StringText(r.location) + ", "
    + Key("schema") + "1"
  }

  function JournalText(r: P.Record, sha: P.Tree -> string): string {
    Parts(ReceiptsText(r), SwapListText(r, sha), StateText(r))
  }

  ghost predicate TreeDigests(sha: P.Tree -> string) {
    forall t :: |sha(t)| == 64 && Plain(sha(t))
  }

  lemma DigestTextLength(tree: Option<P.Tree>, sha: P.Tree -> string)
    requires TreeDigests(sha)
    ensures |DigestText(tree, sha)| == P.DigestLength(tree)
  {
    if tree.Some? {
      StringLength(sha(tree.value));
      PlainLength(sha(tree.value));
    }
  }

  lemma SwapTextLength(c: P.Change, sha: P.Tree -> string)
    requires TreeDigests(sha)
    ensures |SwapText(c, sha)| == P.ChangeLength(c)
  {
    DigestTextLength(c.after, sha);
    DigestTextLength(c.before, sha);
    StringLength(c.box);
    StringLength(c.name);
    DecimalLength(c.identity.device);
    DecimalLength(c.identity.number);
  }

  lemma {:induction false} SwapsTextLength(cs: seq<P.Change>, sha: P.Tree -> string)
    requires TreeDigests(sha)
    ensures |SwapsText(cs, sha)| == P.ChangesLength(cs)
  {
    if cs != [] {
      SwapsTextLength(cs[..|cs| - 1], sha);
      SwapTextLength(cs[|cs| - 1], sha);
    }
  }

  /** The length that decides whether recovery can read the journal is that of the text. */
  lemma JournalTextLength(r: P.Record, sha: P.Tree -> string)
    requires TreeDigests(sha)
    ensures |JournalText(r, sha)| == P.Length(r)
    ensures P.Legible(r) <==> |JournalText(r, sha)| <= 64 * 1024 * 1024
  {
    Base64Length(r.after);
    if r.before.Some? { Base64Length(r.before.value); }
    SwapsTextLength(r.changes, sha);
    StringLength(r.location);
  }
}
