/** The preview modal's three state fields and the transitions that change
    them: `openBill`, `closeModal`, `handleDownloadAction` and the effect that
    performs a pending download. */
module BillModal {
  import opened Bills

  class ModalState {
    var selectedBill: Option<Bill>
    var showModal: bool
    var shouldDownload: bool

    /** The combinations the transitions can reach: the modal is shown exactly
        when a bill is selected, and a download is pending only while the
        modal is shown. */
    ghost predicate Valid()
      reads this
    {
      (showModal <==> selectedBill.Some?) && (shouldDownload ==> showModal)
    }

    /** The invoice markup, and with it the print ref, is mounted only while
        the modal is shown for a selected bill. */
    predicate Mounted()
      reads this
    {
      showModal && selectedBill.Some?
    }

    /** The initial state of the page: nothing selected, nothing shown, no
        download pending. */
    constructor ()
      ensures Valid()
      ensures selectedBill == None && !showModal && !shouldDownload
    {
      selectedBill := None;
      showModal := false;
      shouldDownload := false;
    }

    /** `openBill`: select the bill and show the modal. */
    method OpenBill(bill: Bill)
      modifies this
      ensures selectedBill == Some(bill) && showModal
      ensures shouldDownload == old(shouldDownload)
      ensures Valid()
    {
      selectedBill := Some(bill);
      showModal := true;
    }

    /** `closeModal`: hide the modal, forget the bill, cancel any pending download. */
    method CloseModal()
      modifies this
      ensures selectedBill == None && !showModal && !shouldDownload
      ensures Valid()
    {
      showModal := false;
      selectedBill := None;
      shouldDownload := false;
    }

    /** `handleDownloadAction`: open the bill and ask for a download. */
    method DownloadAction(bill: Bill)
      modifies this
      ensures selectedBill == Some(bill) && showModal && shouldDownload
      ensures Valid()
    {
      OpenBill(bill);
      shouldDownload := true;
    }

    /** The download effect, taken as one step: when a download is pending and
        the invoice markup is mounted, the selected bill is downloaded and the
        request is cleared; otherwise nothing happens. Returns the bill that was
        downloaded, if any. */
    method DownloadEffect() returns (downloaded: Option<Bill>)
      modifies this
      ensures old(shouldDownload && Mounted()) ==>
                downloaded == old(selectedBill) && downloaded.Some?
                && !shouldDownload
                && selectedBill == old(selectedBill) && showModal == old(showModal)
      ensures !old(shouldDownload && Mounted()) ==> downloaded == None && unchanged(this)
      ensures old(Valid()) ==> Valid() && !shouldDownload
      ensures old(Valid()) ==> (downloaded.Some? <==> old(shouldDownload))
    {
      downloaded := None;
      if shouldDownload && showModal && selectedBill.Some? {
        downloaded := selectedBill;
        shouldDownload := false;
      }
    }
  }

  /** A user clicks Download on a row of the bill list: the modal opens on that
      bill, the effect downloads exactly that bill, and the modal stays open with
      no download pending. */
  method DownloadFromList(bill: Bill) returns (downloaded: Option<Bill>, stillOpen: bool)
    ensures downloaded == Some(bill)
    ensures stillOpen
  {
    var page := new ModalState();
    page.DownloadAction(bill);
    downloaded := page.DownloadEffect();
    stillOpen := page.showModal && !page.shouldDownload && page.selectedBill == Some(bill);
  }

  /** Opening a bill with View leaves the download effect nothing to do, and
      closing the modal afterwards leaves it nothing to do either. */
  method ViewThenClose(bill: Bill) returns (downloadedWhileOpen: Option<Bill>, downloadedAfterClose: Option<Bill>)
    ensures downloadedWhileOpen == None
    ensures downloadedAfterClose == None
  {
    var page := new ModalState();
    page.OpenBill(bill);
    downloadedWhileOpen := page.DownloadEffect();
    page.CloseModal();
    downloadedAfterClose := page.DownloadEffect();
  }
}
