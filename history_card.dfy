/** The history card: the badge colour chosen from a conversation's source,
    and the confirmation dialog around deleting the conversation. */
module HistoryCard {
  import opened Wrappers
  import opened Text

  /** The badge variants the card uses. */
  datatype BadgeVariant = Default | Secondary | Outline {
    function Name(): string {
      match this
      case Default => "default"
      case Secondary => "secondary"
      case Outline => "outline"
    }
  }

  /** `word` occurs somewhere in `text`. */
  ghost predicate Mentions(text: string, word: string) {
    exists i :: OccursAt(text, word, i)
  }

  /** `getSourceColor(fonte)`: an absent or empty source and a Wolfram source are
      secondary, a Google source is default (Google is checked first, so a source naming
      both is default), and every other source is outlined. */
  function GetSourceColor(fonte: Option<string>): (r: BadgeVariant)
    ensures r == Default <==> Truthy(fonte) && Mentions(fonte.value, "google")
    ensures r == Secondary <==> (!Truthy(fonte) || (!Mentions(fonte.value, "google") && Mentions(fonte.value, "wolfram")))
    ensures r == Outline <==> (Truthy(fonte) && !Mentions(fonte.value, "google") && !Mentions(fonte.value, "wolfram"))
    ensures r.Name() in {"default", "secondary", "outline"}
  {
    if !Truthy(fonte) then Secondary
    else
      ContainsIffOccurs(fonte.value, "google");
      ContainsIffOccurs(fonte.value, "wolfram");
      if Contains(fonte.value, "google") then Default
      else if Contains(fonte.value, "wolfram") then Secondary
      else Outline
  }

  /** The card's dialog state. */
  class DeleteDialog {
    var showDeleteDialog: bool
    var deleting: bool
    const conversationId: int

    constructor (conversationId: int)
      ensures !showDeleteDialog && !deleting && this.conversationId == conversationId
    {
      showDeleteDialog, deleting := false, false;
      this.conversationId := conversationId;
    }

    /** The trash button opens the dialog. */
    method OpenDialog()
      modifies this
      ensures showDeleteDialog && deleting == old(deleting)
    {
      showDeleteDialog := true;
    }

    /** The cancel button closes the dialog; it is disabled while deleting. */
    method ClickCancel()
      modifies this
      ensures showDeleteDialog == (old(showDeleteDialog) && old(deleting))
      ensures deleting == old(deleting)
    {
      if !deleting {
        showDeleteDialog := false;
      }
    }

    /** Escape or a click on the overlay: the dialog's `onOpenChange` hands `false` to
        `setShowDeleteDialog`, which closes the dialog even while a delete is running. */
    method Dismiss()
      modifies this
      ensures !showDeleteDialog && deleting == old(deleting)
    {
      showDeleteDialog := false;
    }

    /** The confirm button, shown only in the open dialog and disabled while deleting:
        `handleDelete` marks the card as deleting and asks for the conversation's removal. */
    method ClickDelete() returns (request: Option<int>)
      modifies this
      ensures request == if old(showDeleteDialog) && !old(deleting) then Some(conversationId) else None
      ensures deleting == (old(deleting) || request.Some?)
      ensures showDeleteDialog == old(showDeleteDialog)
    {
      request := None;
      if showDeleteDialog && !deleting {
        deleting := true;
        request := Some(conversationId);
      }
    }

    /** `handleDelete` after `onDelete` settles: the dialog closes only on success, and the
        card is no longer deleting either way. A missing result counts as no success. */
    method FinishDelete(success: bool)
      modifies this
      ensures showDeleteDialog == (old(showDeleteDialog) && !success)
      ensures !deleting
    {
      if success {
        showDeleteDialog := false;
      }
      deleting := false;
    }
  }
}
