/** The breadcrumb reducer of `src/store/features/breadcrumbSlice.ts`: one
    list of `{label, href?}` entries (`label` is a Dafny keyword, so the field is `text`) that `setBreadcrumb` overwrites. */
module BreadcrumbSlice {
  import opened Wrappers

  datatype BreadcrumbItem = BreadcrumbItem(text: string, href: Option<string>)

  class BreadcrumbState {
    var value: seq<BreadcrumbItem>

    /** `initialState`: no breadcrumb entries. */
    constructor ()
      ensures value == []
    {
      value := [];
    }

    /** `setBreadcrumb(payload)`: the payload replaces the list, whatever
        was there before. */
    method SetBreadcrumb(payload: seq<BreadcrumbItem>)
      modifies this
      ensures value == payload
    {
      value := payload;
    }
  }

  /** Dispatching `setBreadcrumb(a)` then `setBreadcrumb(b)` leaves the same
      state as dispatching `setBreadcrumb(b)` alone on a fresh store, and
      dispatching the same payload twice is the same as once. */
  method LastWriteWins(a: seq<BreadcrumbItem>, b: seq<BreadcrumbItem>)
    returns (twice: seq<BreadcrumbItem>, once: seq<BreadcrumbItem>, repeated: seq<BreadcrumbItem>)
    ensures twice == once == b
    ensures repeated == a
  {
    var s := new BreadcrumbState();
    s.SetBreadcrumb(a);
    s.SetBreadcrumb(b);
    twice := s.value;
    var t := new BreadcrumbState();
    t.SetBreadcrumb(b);
    once := t.value;
    var u := new BreadcrumbState();
    u.SetBreadcrumb(a);
    u.SetBreadcrumb(a);
    repeated := u.value;
  }
}
