/** Versioned document ingestion (document_ingestion.py). */
module Documents {
  import opened Prelude

  /** A document is identified by its project and source URI. */
  datatype Source = Source(project: int, uri: string)

  /** An artifact to ingest; its hash may be missing, and no parser may accept it. */
  datatype Artifact = Artifact(source: Source, contentHash: Option<string>, data: string, parsable: bool)

  datatype Version = Version(source: Source, checksum: string)

  /** `current` is the position of the current version. */
  datatype Document = Document(current: Option<nat>)

  datatype Library = Library(documents: map<Source, Document>, versions: seq<Version>, changed: seq<Source>)

  type Hash = string -> string

  function HashOf(hash: Hash, a: Artifact): string {
    a.contentHash.GetOr(hash(a.data))
  }

  function CurrentChecksum(l: Library, source: Source): Option<string> {
    if source in l.documents && l.documents[source].current.Some? && l.documents[source].current.value < |l.versions|
    then Some(l.versions[l.documents[source].current.value].checksum) else None
  }

  /** The library after one ingestion: a new version, made current, and an event, unless the current version has the
      same hash. */
  function Ingested(hash: Hash, l: Library, a: Artifact): Library {
    if !a.parsable || CurrentChecksum(l, a.source) == Some(HashOf(hash, a)) then l
    else
      Library(l.documents[a.source := Document(Some(|l.versions|))],
        l.versions + [Version(a.source, HashOf(hash, a))],
        l.changed + [a.source])
  }

  function IngestAll(hash: Hash, l: Library, artifacts: seq<Artifact>): Library {
    if artifacts == [] then l else Ingested(hash, IngestAll(hash, l, Front(artifacts)), Last(artifacts))
  }

  // ----- one source over a whole run -----------------------------------------

  predicate IsLastOf(versions: seq<Version>, source: Source, i: nat) {
    i < |versions| && versions[i].source == source && forall j :: i < j < |versions| ==> versions[j].source != source
  }

  /** A document's current version is the last version of its source, and only documents with versions exist. */
  ghost predicate CurrentHolds(l: Library) {
    && (forall s :: s in l.documents ==>
          l.documents[s].current.Some? && IsLastOf(l.versions, s, l.documents[s].current.value))
    && (forall i :: 0 <= i < |l.versions| ==> l.versions[i].source in l.documents)
  }

  lemma IngestedKeepsCurrent(hash: Hash, l: Library, a: Artifact)
    requires CurrentHolds(l)
    ensures CurrentHolds(Ingested(hash, l, a))
  {
  }

  function ChecksumsOf(versions: seq<Version>, source: Source): seq<string> {
    if versions == [] then []
    else
      ChecksumsOf(Front(versions), source)
      + if Last(versions).source == source then [Last(versions).checksum] else []
  }

  /** The hashes a source was ingested with, in order; artifacts without a parser never get that far. */
  function HashesOf(hash: Hash, artifacts: seq<Artifact>, source: Source): seq<string> {
    if artifacts == [] then []
    else
      HashesOf(hash, Front(artifacts), source)
      + if Last(artifacts).parsable && Last(artifacts).source == source then [HashOf(hash, Last(artifacts))] else []
  }

  /** One entry for each maximal run of equal values. */
  function Runs(values: seq<string>): seq<string> {
    if values == [] then []
    else if |values| > 1 && Last(Front(values)) == Last(values) then Runs(Front(values))
    else Runs(Front(values)) + [Last(values)]
  }

  /** The number of positions at which a value differs from the one before it, counting the first. */
  function Changes(values: seq<string>): nat {
    if values == [] then 0
    else Changes(Front(values)) + if |values| > 1 && Last(Front(values)) == Last(values) then 0 else 1
  }

  lemma {:induction false} RunsAreMaximal(values: seq<string>)
    ensures |Runs(values)| == Changes(values)
    ensures values != [] ==> Runs(values) != [] && Last(Runs(values)) == Last(values)
    ensures forall i :: 0 < i < |Runs(values)| ==> Runs(values)[i - 1] != Runs(values)[i]
    ensures forall v :: v in Runs(values) <==> v in values
  {
    if values != [] {
      RunsAreMaximal(Front(values));
      assert values == Front(values) + [Last(values)];
    }
  }

  lemma {:induction false} LastChecksum(versions: seq<Version>, source: Source, i: nat)
    requires IsLastOf(versions, source, i)
    ensures ChecksumsOf(versions, source) != [] && Last(ChecksumsOf(versions, source)) == versions[i].checksum
  {
    if i < |versions| - 1 {
      LastChecksum(Front(versions), source, i);
    }
  }

  lemma {:induction false} NoChecksums(versions: seq<Version>, source: Source)
    requires forall i :: 0 <= i < |versions| ==> versions[i].source != source
    ensures ChecksumsOf(versions, source) == []
  {
    if versions != [] {
      NoChecksums(Front(versions), source);
    }
  }

  function CountOf(changed: seq<Source>, source: Source): nat {
    if changed == [] then 0 else CountOf(Front(changed), source) + if Last(changed) == source then 1 else 0
  }

  /** Over any run of ingestions of any sources: each source has one version, and one change event, for each
      maximal run of equal hashes; versions are only appended, and the current one is the last, whose
      checksum is the last hash ingested. */
  lemma {:induction false} VersionsCountContentChanges(hash: Hash, artifacts: seq<Artifact>, source: Source)
    ensures
      var l := IngestAll(hash, Library(map[], [], []), artifacts);
      var hashes := HashesOf(hash, artifacts, source);
      && CurrentHolds(l)
      && ChecksumsOf(l.versions, source) == Runs(hashes)
      && CountOf(l.changed, source) == Changes(hashes)
      && (source in l.documents <==> hashes != [])
      && (hashes != [] ==> CurrentChecksum(l, source) == Some(Last(hashes)))
  {
    if artifacts != [] {
      VersionsCountContentChanges(hash, Front(artifacts), source);
      var before, a := IngestAll(hash, Library(map[], [], []), Front(artifacts)), Last(artifacts);
      IngestedKeepsCurrent(hash, before, a);
      CurrentInRange(before, source);
      hide CurrentHolds;
      OneIngestion(hash, before, a, source, HashesOf(hash, Front(artifacts), source));
    }
  }

  lemma OneIngestion(hash: Hash, l: Library, a: Artifact, source: Source, hashes: seq<string>)
    requires source in l.documents ==>
      l.documents[source].current.Some? && l.documents[source].current.value < |l.versions|
    requires ChecksumsOf(l.versions, source) == Runs(hashes)
    requires CountOf(l.changed, source) == Changes(hashes)
    requires source in l.documents <==> hashes != []
    requires hashes != [] ==> CurrentChecksum(l, source) == Some(Last(hashes))
    ensures
      var r := Ingested(hash, l, a);
      var more := hashes + if a.parsable && a.source == source then [HashOf(hash, a)] else [];
      && l.versions <= r.versions
      && ChecksumsOf(r.versions, source) == Runs(more)
      && CountOf(r.changed, source) == Changes(more)
      && (source in r.documents <==> more != [])
      && (more != [] ==> CurrentChecksum(r, source) == Some(Last(more)))
  {
    if a.parsable && a.source == source {
      RunsStep(hashes, HashOf(hash, a));
      SameSource(hash, l, a);
    } else {
      OtherSource(hash, l, a, source);
      assert hashes + [] == hashes;
    }
  }

  lemma SameSource(hash: Hash, l: Library, a: Artifact)
    requires a.parsable
    ensures
      var r := Ingested(hash, l, a);
      var same := CurrentChecksum(l, a.source) == Some(HashOf(hash, a));
      && l.versions <= r.versions
      && ChecksumsOf(r.versions, a.source)
         == ChecksumsOf(l.versions, a.source) + (if same then [] else [HashOf(hash, a)])
      && CountOf(r.changed, a.source) == CountOf(l.changed, a.source) + (if same then 0 else 1)
      && a.source in r.documents
      && CurrentChecksum(r, a.source) == Some(HashOf(hash, a))
  {
    hide HashOf;
    var checksums := ChecksumsOf(l.versions, a.source);
    assert checksums + [] == checksums;
    var version := Version(a.source, HashOf(hash, a));
    assert Front(l.versions + [version]) == l.versions && Front(l.changed + [a.source]) == l.changed;
  }

  lemma OtherSource(hash: Hash, l: Library, a: Artifact, source: Source)
    requires a.parsable ==> a.source != source
    requires source in l.documents ==>
      l.documents[source].current.Some? && l.documents[source].current.value < |l.versions|
    ensures
      var r := Ingested(hash, l, a);
      && l.versions <= r.versions
      && ChecksumsOf(r.versions, source) == ChecksumsOf(l.versions, source)
      && CountOf(r.changed, source) == CountOf(l.changed, source)
      && (source in r.documents <==> source in l.documents)
      && CurrentChecksum(r, source) == CurrentChecksum(l, source)
  {
    hide HashOf;
    var checksums := ChecksumsOf(l.versions, source);
    assert checksums + [] == checksums;
    var version := Version(a.source, HashOf(hash, a));
    assert Front(l.versions + [version]) == l.versions && Front(l.changed + [a.source]) == l.changed;
  }

  lemma CurrentInRange(l: Library, source: Source)
    requires CurrentHolds(l)
    ensures source in l.documents ==>
      l.documents[source].current.Some? && l.documents[source].current.value < |l.versions|
  {
  }

  lemma RunsStep(values: seq<string>, v: string)
    ensures
      var same := values != [] && Last(values) == v;
      && Runs(values + [v]) == (if same then Runs(values) else Runs(values) + [v])
      && Changes(values + [v]) == (if same then Changes(values) else Changes(values) + 1)
  {
    assert Front(values + [v]) == values;
  }

  // ----- chunks --------------------------------------------------------------

  datatype Chunk = Chunk(index: nat, content: string)

  /** The non-empty nodes of a version, each with its position. */
  function Chunks(contents: seq<string>): seq<Chunk> {
    if contents == [] then []
    else Chunks(Front(contents)) + if Last(contents) != "" then [Chunk(|contents| - 1, Last(contents))] else []
  }

  method MakeChunks(contents: seq<string>) returns (chunks: seq<Chunk>)
    ensures chunks == Chunks(contents)
  {
    chunks := [];
    for index := 0 to |contents|
      invariant chunks == Chunks(contents[..index])
    {
      assert Front(contents[..index + 1]) == contents[..index];
      if contents[index] != "" {
        chunks := chunks + [Chunk(index, contents[index])];
      }
    }
    assert contents[..|contents|] == contents;
  }

  lemma {:induction false} ChunksAreNonEmptyNodes(contents: seq<string>)
    ensures forall c :: c in Chunks(contents) <==>
      c.index < |contents| && contents[c.index] == c.content && c.content != ""
    ensures forall i, j :: 0 <= i < j < |Chunks(contents)| ==> Chunks(contents)[i].index < Chunks(contents)[j].index
    ensures forall c :: c in Chunks(contents) ==> c.index < |contents|
  {
    if contents != [] {
      ChunksAreNonEmptyNodes(Front(contents));
    }
  }

  // ----- the service ---------------------------------------------------------

  datatype Outcome = NoParser | Unchanged(version: nat) | NewVersion(version: nat)

  class DocumentService {
    const hash: Hash
    var documents: map<Source, Document>
    var versions: seq<Version>
    var changed: seq<Source>

    function State(): Library
      reads this
    {
      Library(documents, versions, changed)
    }

    ghost predicate Valid()
      reads this
    {
      CurrentHolds(State())
    }

    constructor (hash: Hash)
      ensures this.hash == hash && State() == Library(map[], [], []) && Valid()
    {
      this.hash, documents, versions, changed := hash, map[], [], [];
    }

    method Ingest(a: Artifact) returns (outcome: Outcome)
      requires Valid()
      modifies this
      ensures Valid()
      ensures State() == Ingested(hash, old(State()), a)
      ensures outcome.NoParser? <==> !a.parsable
      ensures outcome.Unchanged? <==> a.parsable && CurrentChecksum(old(State()), a.source) == Some(HashOf(hash, a))
      ensures !outcome.NoParser? ==> documents[a.source].current == Some(outcome.version)
    {
      ghost var before := State();
      CurrentInRange(before, a.source);
      IngestedKeepsCurrent(hash, before, a);
      hide CurrentHolds;
      var checksum := if a.contentHash.Some? then a.contentHash.value else hash(a.data);
      if !a.parsable {
        return NoParser;
      }
      var current: Option<nat> := None;
      if a.source in documents {
        current := documents[a.source].current;
      } else {
        documents := documents[a.source := Document(None)];
      }
      if current.Some? && versions[current.value].checksum == checksum {
        return Unchanged(current.value);
      }
      outcome := NewVersion(|versions|);
      versions := versions + [Version(a.source, checksum)];
      documents := documents[a.source := Document(Some(outcome.version))];
      changed := changed + [a.source];
      assert documents == before.documents[a.source := Document(Some(|before.versions|))];
    }
  }
}
