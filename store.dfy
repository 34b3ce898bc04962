/**
 * The document store as the import routes use it: an ordered collection of
 * saved projects, queried with `Project.findOne({importedFrom, externalId})`
 * and extended by `project.save()`.
 */
module DocumentStore {
  import opened Wrappers
  import opened Platforms
  import opened ProjectSchema

  /** The record answers the query `{importedFrom: from, externalId: id}`. */
  predicate Matches(p: Project, from: string, id: string) {
    p.importedFrom == Some(from) && p.externalId == Some(id)
  }

  /** Some record answers the query. */
  predicate Imported(records: seq<Project>, from: string, id: string) {
    exists k :: 0 <= k < |records| && Matches(records[k], from, id)
  }

  /** The number of records that answer the query. */
  function CountImports(records: seq<Project>, from: string, id: string): (n: nat)
    ensures n <= |records|
    ensures n == 0 <==> !Imported(records, from, id)
  {
    if records == [] then 0
    else
      var last := records[|records| - 1];
      var rest := records[..|records| - 1];
      assert forall k :: 0 <= k < |rest| ==> rest[k] == records[k];
      CountImports(rest, from, id) + (if Matches(last, from, id) then 1 else 0)
  }

  /** The record came from one of the three platform routes. */
  predicate IsPlatformImport(p: Project) {
    p.importedFrom.Some? && IsPlatformTag(p.importedFrom.value)
  }

  /** The two records have the same `(importedFrom, externalId)` key. */
  predicate SameKey(a: Project, b: Project) {
    a.importedFrom == b.importedFrom && a.externalId == b.externalId
  }

  /** No two platform-imported records share `(importedFrom, externalId)`. */
  ghost predicate UniqueImports(records: seq<Project>) {
    forall i, j :: 0 <= i < j < |records| && IsPlatformImport(records[i]) ==> !SameKey(records[i], records[j])
  }

  /**
   * Appending a record keeps platform imports unique when the record is not
   * a platform import, or when its key is not yet in the store.
   */
  lemma AppendKeepsUnique(records: seq<Project>, rec: Project)
    requires UniqueImports(records)
    requires IsPlatformImport(rec) ==>
      rec.externalId.Some? && !Imported(records, rec.importedFrom.value, rec.externalId.value)
    ensures UniqueImports(records + [rec])
  {
  }

  /** Under uniqueness, a platform key is held by at most one record. */
  lemma {:induction false} UniqueCountAtMostOne(records: seq<Project>, from: string, id: string)
    requires UniqueImports(records)
    requires IsPlatformTag(from)
    ensures CountImports(records, from, id) <= 1
  {
    if records != [] {
      var rest := records[..|records| - 1];
      var last := records[|records| - 1];
      assert UniqueImports(rest) by {
        forall i, j | 0 <= i < j < |rest| && IsPlatformImport(rest[i])
          ensures !SameKey(rest[i], rest[j])
        {
          assert rest[i] == records[i] && rest[j] == records[j];
        }
      }
      UniqueCountAtMostOne(rest, from, id);
    }
  }

  /** The store's state: the saved projects in insertion order. */
  class ProjectStore {
    var records: seq<Project>

    /** `findOne`: some record answering the query, or none when no record does. */
    method FindOne(from: string, id: string) returns (found: Option<Project>)
      ensures found.Some? <==> Imported(records, from, id)
      ensures found.Some? ==> found.value in records && Matches(found.value, from, id)
    {
      var k := 0;
      while k < |records|
        invariant 0 <= k <= |records|
        invariant forall j :: 0 <= j < k ==> !Matches(records[j], from, id)
      {
        if Matches(records[k], from, id) {
          return Some(records[k]);
        }
        k := k + 1;
      }
      return None;
    }

    /**
     * `doc.save()`: validation runs first and a document that fails it is not
     * written; otherwise the pre-save hook stamps the document and it is
     * appended. Returns whether the write happened.
     */
    method Save(doc: ProjectDocument, now: Timestamp) returns (saved: bool)
      modifies this, doc
      ensures saved == MeetsSchema(old(doc.record))
      ensures saved ==> doc.record == Stamped(old(doc.record), now) && records == old(records) + [doc.record]
      ensures !saved ==> doc.record == old(doc.record) && records == old(records)
    {
      if !MeetsSchema(doc.record) {
        return false;
      }
      doc.PreSave(now);
      records := records + [doc.record];
      return true;
    }
  }
}
