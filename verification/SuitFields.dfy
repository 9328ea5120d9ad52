/** Which manifests are accepted and where their fields come from, told by the numbers of draft-ietf-suit-manifest. */
module SuitFields {
  import opened Wrappers
  import opened Bytes
  import opened CborReader
  import opened SuitEnvelope
  import opened SuitAuthenticate
  import opened SuitManifest
  import opened SuitEffects

  predicate HasKey(e: Entry, k: u64) { IsUint(e.key) && e.key.value == k }

  /** The i-th entry is the last one with this key. */
  predicate LastWith(es: seq<Entry>, k: u64, i: nat)
  {
    i < |es| && HasKey(es[i], k) && forall j | i < j < |es| :: !HasKey(es[j], k)
  }

  predicate NoneWith(es: seq<Entry>, k: u64) { forall i | 0 <= i < |es| :: !HasKey(es[i], k) }

  // Acceptance.

  /** The values that a common block may have, by key. */
  predicate CommonValue(e: Entry)
  {
    && IsUint(e.key)
    && match e.key.value
       case 1 =>
         && GetArray(e.at).Got?
         && var l := Elements(GetArray(e.at).value);
            l.complete && |l.all| <= 8 && forall c <- l.all :: GetMap(c).Got?
       case 2 => GetArray(e.at).Got? && var l := Elements(GetArray(e.at).value); l.complete && |l.all| <= 8
       case 4 => GetBstr(e.at).Got?
       case _ => false
  }

  predicate Twice(es: seq<Entry>, i: nat, j: nat)
    requires i < |es| && j < |es|
  {
    IsUint(es[i].key) && IsUint(es[j].key) && es[i].key.value == es[j].key.value
  }

  /** What a common block may be: a map of dependencies, components and a command sequence, none of them twice. */
  predicate CommonEntries(l: Listing<Entry>)
  {
    && l.complete && (forall i | 0 <= i < |l.all| :: CommonValue(l.all[i]))
    && forall i, j | 0 <= i < j < |l.all| :: !Twice(l.all, i, j)
  }

  lemma CommonIsAccepted(r: Range)
    ensures CommonParses(r) <==>
            GetMap(Toplevel(r)).Got? && CommonEntries(Entries(GetMap(Toplevel(r)).value))
  {
    hide GetMap, Entries, GetArray, GetBstr, Elements, CommonListing, CommonEntries;
    if GetMap(Toplevel(r)).Got? {
      SameCommon(Entries(GetMap(Toplevel(r)).value));
    }
  }

  lemma SameCommon(l: Listing<Entry>)
    ensures CommonEntries(l) <==> CommonListing(l)
  {
    hide CommonValueFits, CommonValue;
    forall i | 0 <= i < |l.all| ensures CommonValue(l.all[i]) <==> CommonValueFits(l.all[i]) {
      SameCommonValue(l.all[i]);
    }
    hide CommonValueFits, CommonValue, Twice, SameKey;
    forall i, j | 0 <= i < j < |l.all| ensures Twice(l.all, i, j) <==> SameKey(l.all[i].key, l.all[j].key) {
      TwiceIsSame(l.all, i, j);
    }
    if forall i, j | 0 <= i < j < |l.all| :: !Twice(l.all, i, j) {
      assert NoRepeats(l.all);
    }
  }

  lemma TwiceIsSame(es: seq<Entry>, i: nat, j: nat)
    requires i < |es| && j < |es|
    ensures Twice(es, i, j) <==> SameKey(es[i].key, es[j].key)
  {
  }

  lemma SameCommonValue(e: Entry)
    ensures CommonValue(e) <==> CommonValueFits(e)
  {
    hide GetMap, GetArray, GetBstr, Elements;
  }

  /** The values that a manifest may have after its version and its sequence number, by key; other keys may have any. */
  predicate ManifestValue(e: Entry)
  {
    IsUint(e.key) ==>
      match e.key.value
      case 1 => false
      case 2 => false
      case 3 =>
        && GetBstr(e.at).Got?
        && var block := GetMap(Toplevel(GetBstr(e.at).value));
           block.Got? && CommonEntries(Entries(block.value))
      case 4 => GetBstr(e.at).Got?
      case 10 => GetBstr(e.at).Got?
      case 11 => GetBstr(e.at).Got?
      case 12 => GetBstr(e.at).Got?
      case 7 => GetBstr(e.at).Got? || GetDigest(e.at).Got?
      case 8 => GetBstr(e.at).Got? || GetDigest(e.at).Got?
      case 9 => GetBstr(e.at).Got? || GetDigest(e.at).Got?
      case 13 => GetBstr(e.at).Got? || GetDigest(e.at).Got?
      case 14 => GetBstr(e.at).Got? || GetDigest(e.at).Got?
      case _ => true
  }

  lemma SameManifestValue(e: Entry)
    ensures ManifestValue(e) <==> ManifestValueFits(e)
  {
    hide GetMap, GetBstr, GetDigest, CommonEntries, CommonParses, Entries;
    if GetBstr(e.at).Got? {
      CommonIsAccepted(GetBstr(e.at).value);
    }
  }

  /** A manifest begins with version 1 and a sequence number, and has a common block. */
  predicate ManifestEntries(l: Listing<Entry>)
  {
    && l.complete && |l.all| >= 2
    && HasKey(l.all[0], 1) && GetUint(l.all[0].at).Got? && GetUint(l.all[0].at).value == 1
    && HasKey(l.all[1], 2) && GetUint(l.all[1].at).Got?
    && (forall i | 2 <= i < |l.all| :: ManifestValue(l.all[i]))
    && exists i | 0 <= i < |l.all| :: HasKey(l.all[i], 3)
  }

  lemma ManifestIsAccepted(r: Range)
    ensures ManifestParses(r) <==>
            GetMap(Toplevel(r)).Got? && ManifestEntries(Entries(GetMap(Toplevel(r)).value))
  {
    hide GetMap, Entries, ManifestListing, ManifestEntries;
    if GetMap(Toplevel(r)).Got? {
      SameManifest(Entries(GetMap(Toplevel(r)).value));
    }
  }

  lemma SameManifest(l: Listing<Entry>)
    ensures ManifestEntries(l) <==> ManifestListing(l)
  {
    hide GetUint, GetBstr, Last, LastBstr, ManifestValue, ManifestValueFits, HeaderFits;
    forall i | 0 <= i < |l.all| ensures ManifestValue(l.all[i]) <==> ManifestValueFits(l.all[i]) {
      SameManifestValue(l.all[i]);
    }
    SameHeader(l.all);
    LastThere(l.all, 3);
    hide HasKey;
    if ManifestEntriesFit(l.all) {
      CommonIsBstr(l.all);
    }
  }

  lemma LastThere(es: seq<Entry>, k: u64)
    ensures Last(es, Label(k)).Some? <==> exists i | 0 <= i < |es| :: HasKey(es[i], k)
    ensures Last(es, Label(k)).Some? ==> exists i: nat :: LastWith(es, k, i) && es[i] == Last(es, Label(k)).value
    ensures Last(es, Label(k)).None? ==> NoneWith(es, k)
  {
    LastIsLast(es, Label(k));
    hide Last;
    forall i | 0 <= i < |es| ensures HasKey(es[i], k) <==> Matches(Label(k), es[i].key) {
    }
    if Last(es, Label(k)).Some? {
      var i :| 0 <= i < |es| && Matches(Label(k), es[i].key) && es[i] == Last(es, Label(k)).value
               && forall j | i < j < |es| :: !Matches(Label(k), es[j].key);
      assert LastWith(es, k, i);
    }
  }

  lemma SameHeader(es: seq<Entry>)
    ensures HeaderFits(es) <==>
            && |es| >= 2 && HasKey(es[0], 1) && GetUint(es[0].at).Got? && GetUint(es[0].at).value == 1
            && HasKey(es[1], 2) && GetUint(es[1].at).Got?
  {
    hide GetUint;
  }

  /** Where all values fit, the common block is a byte string. */
  lemma CommonIsBstr(es: seq<Entry>)
    requires |es| >= 2 && HasKey(es[0], 1) && HasKey(es[1], 2)
    requires forall i | 2 <= i < |es| :: ManifestValueFits(es[i])
    ensures LastBstr(es, Label(3)).Span? <==> Last(es, Label(3)).Some?
  {
  }

  // Fields.

  /** The byte string of the last entry with a key, or nothing. */
  ghost predicate BstrOf(es: seq<Entry>, k: u64, r: Range)
  {
    || (NoneWith(es, k) && r.Null?)
    || exists i: nat | LastWith(es, k, i) :: GetBstr(es[i].at).Got? && GetBstr(es[i].at).value == r
  }

  /** The body or the digest of the last entry with a key, or nothing. */
  ghost predicate SeverableOf(es: seq<Entry>, k: u64, s: Severable)
  {
    || (NoneWith(es, k) && s == Absent)
    || exists i: nat | LastWith(es, k, i) ::
         if GetBstr(es[i].at).Got? then s == Body(GetBstr(es[i].at).value)
         else GetDigest(es[i].at).Got? && s == Severed(GetDigest(es[i].at).value)
  }

  lemma LastBstrIs(es: seq<Entry>, k: u64)
    requires forall i | 0 <= i < |es| && HasKey(es[i], k) :: GetBstr(es[i].at).Got?
    ensures BstrOf(es, k, LastBstr(es, Label(k)))
  {
    LastThere(es, k);
    hide GetBstr, Last;
  }

  lemma LastSeverableIs(es: seq<Entry>, k: u64)
    requires forall i | 0 <= i < |es| && HasKey(es[i], k) :: GetBstr(es[i].at).Got? || GetDigest(es[i].at).Got?
    ensures SeverableOf(es, k, LastSeverable(es, Label(k)))
  {
    LastThere(es, k);
    hide GetBstr, GetDigest, Last;
  }

  /** Every field of a parsed manifest is what the last entry with the field's number holds. */
  lemma FieldsAreLast(envelope: Range)
    requires ManifestOf(envelope).Some?
    ensures var m := ManifestOf(envelope).value;
            var g := GetMap(Toplevel(m.binary));
            && g.Got? && ManifestEntries(Entries(g.value))
            && var es := Entries(g.value).all;
               && m.version == GetUint(es[0].at).value && m.sequenceNumber == GetUint(es[1].at).value
               && BstrOf(es, 3, m.commonBstr) && BstrOf(es, 4, m.referenceUri)
               && SeverableOf(es, 7, m.dependencyResolution)
               && SeverableOf(es, 8, m.payloadFetch) && SeverableOf(es, 9, m.install) && BstrOf(es, 10, m.validate)
               && BstrOf(es, 11, m.load) && BstrOf(es, 12, m.run) && SeverableOf(es, 13, m.text)
               && SeverableOf(es, 14, m.coswid)
  {
    hide ManifestOf, Entries, GetMap, GetUint, ManifestEntries, BstrOf, SeverableOf, LastBstr, LastSeverable,
         HeaderFits, ManifestParses, FieldOf;
    BinaryIsField(envelope);
    var es := FieldsFrom(envelope, ManifestOf(envelope).value.binary);
    BstrFieldIs(es, 3);
    BstrFieldIs(es, 4);
    BstrFieldIs(es, 10);
    BstrFieldIs(es, 11);
    BstrFieldIs(es, 12);
    SeverableFieldIs(es, 7);
    SeverableFieldIs(es, 8);
    SeverableFieldIs(es, 9);
    SeverableFieldIs(es, 13);
    SeverableFieldIs(es, 14);
  }

  lemma NotHeader(es: seq<Entry>, i: nat, k: u64)
    requires |es| >= 2 && HasKey(es[0], 1) && HasKey(es[1], 2) && i < |es| && HasKey(es[i], k) && k !in {1, 2}
    ensures i >= 2
  {
  }

  lemma EntryValue(es: seq<Entry>, i: nat, k: u64)
    requires ManifestEntries(Listing(es, true)) && i < |es| && HasKey(es[i], k) && k !in {1, 2}
    ensures ManifestValue(es[i])
  {
    hide GetUint, ManifestValue, HasKey, GetAny, GetBstr, GetMap, GetDigest, Entries, CommonEntries, IsUint;
    NotHeader(es, i, k);
  }

  lemma BstrFieldIs(es: seq<Entry>, k: u64)
    requires ManifestEntries(Listing(es, true)) && k in {3, 4, 10, 11, 12}
    ensures BstrOf(es, k, LastBstr(es, Label(k)))
  {
    hide *;
    forall i | 0 <= i < |es| && HasKey(es[i], k) ensures GetBstr(es[i].at).Got? {
      EntryValue(es, i, k);
      BstrValue(es[i], k);
    }
    LastBstrIs(es, k);
  }

  lemma BstrValue(e: Entry, k: u64)
    requires ManifestValue(e) && HasKey(e, k) && k in {3, 4, 10, 11, 12}
    ensures GetBstr(e.at).Got?
  {
    hide GetBstr, GetDigest, GetMap, Entries, CommonEntries;
  }

  lemma SeverableFieldIs(es: seq<Entry>, k: u64)
    requires ManifestEntries(Listing(es, true)) && k in {7, 8, 9, 13, 14}
    ensures SeverableOf(es, k, LastSeverable(es, Label(k)))
  {
    hide *;
    forall i | 0 <= i < |es| && HasKey(es[i], k) ensures GetBstr(es[i].at).Got? || GetDigest(es[i].at).Got? {
      EntryValue(es, i, k);
      SeverableValue(es[i], k);
    }
    LastSeverableIs(es, k);
  }

  lemma SeverableValue(e: Entry, k: u64)
    requires ManifestValue(e) && HasKey(e, k) && k in {7, 8, 9, 13, 14}
    ensures GetBstr(e.at).Got? || GetDigest(e.at).Got?
  {
    hide GetBstr, GetDigest, GetMap, Entries, CommonEntries;
  }

  lemma FieldsFrom(envelope: Range, r: Range) returns (es: seq<Entry>)
    requires FieldOf(envelope, Label(SUIT_MANIFEST)) == Some(r) && ManifestOf(envelope).Some?
    ensures GetMap(Toplevel(r)).Got? && es == Entries(GetMap(Toplevel(r)).value).all && HeaderFits(es)
    ensures Entries(GetMap(Toplevel(r)).value) == Listing(es, true) && ManifestEntries(Listing(es, true))
    ensures var m := ManifestOf(envelope).value;
            && m.version == GetUint(es[0].at).value && m.sequenceNumber == GetUint(es[1].at).value
            && m.commonBstr == LastBstr(es, Label(3)) && m.referenceUri == LastBstr(es, Label(4))
            && m.dependencyResolution == LastSeverable(es, Label(7)) && m.payloadFetch == LastSeverable(es, Label(8))
            && m.install == LastSeverable(es, Label(9)) && m.validate == LastBstr(es, Label(10))
            && m.load == LastBstr(es, Label(11)) && m.run == LastBstr(es, Label(12))
            && m.text == LastSeverable(es, Label(13)) && m.coswid == LastSeverable(es, Label(14))
  {
    hide FieldOf, Entries, GetMap, LastSeverable, LastBstr, CommonOf, GetUint, ManifestEntriesFit, ManifestEntries;
    es := Entries(GetMap(Toplevel(r)).value).all;
    HeaderThere(es);
    SameManifest(Listing(es, true));
  }

  lemma HeaderThere(es: seq<Entry>)
    ensures ManifestEntriesFit(es) ==> HeaderFits(es)
  {
    hide HeaderFits;
  }

  /** A numbered field of an envelope: tag 107 on a map, and the byte string of the last entry with the number, which
      must be one of those that an envelope may have; every entry with that number has a byte string. */
  lemma FieldIsLast(envelope: Range, k: u64, r: Range)
    ensures FieldOf(envelope, Label(k)) == Some(r) <==>
            && k in {1, 2, 3, 7, 8, 9, 13, 14}
            && var tag := GetTag(Toplevel(envelope));
               && tag.Got? && tag.value == 107 && GetMap(tag.next).Got?
               && var l := Entries(GetMap(tag.next).value);
                  && l.complete && (forall i | 0 <= i < |l.all| && HasKey(l.all[i], k) :: GetBstr(l.all[i].at).Got?)
                  && BstrOf(l.all, k, r)
  {
    hide GetTag, GetMap, Entries, GetBstr, BstrOf, AllBstr, LastBstr, HasKey;
    var tag := GetTag(Toplevel(envelope));
    if tag.Got? && tag.value == 107 && GetMap(tag.next).Got? {
      FieldAmong(Entries(GetMap(tag.next).value).all, k, r);
    }
  }

  lemma FieldAmong(es: seq<Entry>, k: u64, r: Range)
    ensures AllBstr(es, Label(k)) && LastBstr(es, Label(k)) == r <==>
            (forall i | 0 <= i < |es| && HasKey(es[i], k) :: GetBstr(es[i].at).Got?) && BstrOf(es, k, r)
  {
    AllBstrIs(es, k);
    if AllBstr(es, Label(k)) {
      LastThere(es, k);
      hide GetBstr, Last, AllBstr;
    }
  }

  lemma AllBstrIs(es: seq<Entry>, k: u64)
    ensures AllBstr(es, Label(k)) <==> forall i | 0 <= i < |es| && HasKey(es[i], k) :: GetBstr(es[i].at).Got?
  {
    hide GetBstr;
  }

  /** The items of the array under the last entry with a key, each as a range of its own, or none. */
  ghost predicate ItemsOf(es: seq<Entry>, k: u64, items: seq<Range>)
  {
    || (NoneWith(es, k) && items == [])
    || exists i: nat | LastWith(es, k, i) ::
         && GetArray(es[i].at).Got?
         && var cs := Elements(GetArray(es[i].at).value).all;
            |items| == |cs| && forall j | 0 <= j < |cs| :: GetItem(cs[j]).Got? ==> items[j] == GetItem(cs[j]).value
  }

  /** What a common block holds: the number of its dependencies, its components, and its command sequence. */
  lemma CommonIsLast(r: Range)
    requires CommonParses(r)
    ensures GetMap(Toplevel(r)).Got?
    ensures var es, common := Entries(GetMap(Toplevel(r)).value).all, CommonOf(r);
            && (exists items :: ItemsOf(es, 1, items) && |items| == common.nDependencies)
            && ItemsOf(es, 2, common.components) && BstrOf(es, 4, common.commandSequence)
  {
    hide GetMap, Entries, CommonListing, BstrOf, ItemsOf, CommonFrom;
    CommonIsAccepted(r);
    CommonFromLast(Entries(GetMap(Toplevel(r)).value).all);
  }

  lemma CommonFromLast(es: seq<Entry>)
    requires forall i | 0 <= i < |es| :: CommonValue(es[i])
    ensures var common := CommonFrom(es);
            && (exists items :: ItemsOf(es, 1, items) && |items| == common.nDependencies)
            && ItemsOf(es, 2, common.components) && BstrOf(es, 4, common.commandSequence)
  {
    hide CommonValue, ItemsOf, BstrOf, ElementsAt, Last, LastBstr;
    LastItems(es, 1);
    LastItems(es, 2);
    LastSequence(es);
  }

  function LastElements(es: seq<Entry>, k: u64): seq<Range>
  {
    match Last(es, Label(k)) case None => [] case Some(e) => ItemsAt(ElementsAt(e.at))
  }

  lemma LastItems(es: seq<Entry>, k: u64)
    requires k in {1, 2} && forall i | 0 <= i < |es| :: CommonValue(es[i])
    ensures ItemsOf(es, k, LastElements(es, k))
  {
    LastThere(es, k);
    hide Last, CommonValue, Elements, GetArray, GetItem;
    if Last(es, Label(k)).Some? {
      var i: nat :| LastWith(es, k, i) && es[i] == Last(es, Label(k)).value;
      ArrayValue(es[i], k);
    }
  }

  lemma ArrayValue(e: Entry, k: u64)
    requires CommonValue(e) && HasKey(e, k) && k in {1, 2}
    ensures GetArray(e.at).Got?
  {
    hide GetBstr, GetArray, Elements, GetMap;
  }

  lemma LastSequence(es: seq<Entry>)
    requires forall i | 0 <= i < |es| :: CommonValue(es[i])
    ensures BstrOf(es, 4, LastBstr(es, Label(4)))
  {
    hide CommonValue, GetBstr, BstrOf, LastBstr;
    forall i | 0 <= i < |es| && HasKey(es[i], 4) ensures GetBstr(es[i].at).Got? {
      SequenceValue(es[i]);
    }
    LastBstrIs(es, 4);
  }

  lemma SequenceValue(e: Entry)
    requires CommonValue(e) && HasKey(e, 4)
    ensures GetBstr(e.at).Got?
  {
    hide GetBstr, GetArray, Elements, GetMap;
  }
}
