/**
 * The reminder collection: the documents in insertion order. Nothing in the
 * modelled code deletes a reminder, so a document's position is its identity.
 */
module ReminderStore {
  import opened Common
  import opened ReminderModel

  class ReminderCollection {
    var docs: seq<ReminderDoc>

    ghost predicate Valid()
      reads this, docs
    {
      && (forall i, j :: 0 <= i < j < |docs| ==> docs[i] != docs[j])
      && (forall i :: 0 <= i < |docs| ==> docs[i].id == i)
    }

    /** The values of all documents, in collection order. */
    function Records(): (rs: seq<Reminder>)
      reads this, docs
      ensures |rs| == |docs|
      ensures forall i :: 0 <= i < |docs| ==> rs[i] == docs[i].View()
    {
      seq(|docs|, i requires 0 <= i < |docs| reads this, docs => docs[i].View())
    }

    constructor ()
      ensures Valid() && docs == [] && Records() == []
    {
      docs := [];
    }

    /** `Reminder.create(...)`: a new pending document at the end of the collection. */
    method Create(user: nat, medication: nat, scheduledTime: Time) returns (doc: ReminderDoc)
      requires Valid()
      modifies this
      ensures Valid() && fresh(doc)
      ensures docs == old(docs) + [doc]
      ensures Records() == old(Records()) + [NewReminder(|old(docs)|, user, medication, scheduledTime)]
    {
      doc := new ReminderDoc(|docs|, user, medication, scheduledTime);
      docs := docs + [doc];
    }
  }

  /** Every record sits at its own identity. */
  ghost predicate Indexed(rs: seq<Reminder>)
  {
    forall i :: 0 <= i < |rs| ==> rs[i].id == i
  }

  lemma ValidIndexed(c: ReminderCollection)
    requires c.Valid()
    ensures Indexed(c.Records())
  {
  }
}
