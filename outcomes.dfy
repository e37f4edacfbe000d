/** Failure-carrying values shared by every part of the crawler model.
    Each `Error` names the Python exception the crawler would raise at that point. */
module Outcomes {

  datatype Option<T> = None | Some(value: T) {
    function GetOr(default: T): T {
      match this
      case Some(v) => v
      case None => default
    }
  }

  datatype Result<T> = Ok(value: T) | Err(error: Error)

  datatype Error =
    | FetchFailed       // requests.get raised (transport failure)
    | NoTitleDiv        // entry has no `div.title`: AttributeError on None.find
    | NoTitleText       // title anchor's `.string` is None: AttributeError on None.strip
    | NoMetaDiv         // entry has no `div.meta`: AttributeError on None.find
    | NoDateDiv         // meta has no `div.date`: AttributeError on None.string
    | NoAuthorDiv       // meta has no `div.author`: AttributeError on None.string
    | NoPagingGroup     // page has no `div.btn-group-paging`: AttributeError on None.find_all
    | NoPagingButtons   // `ctrl` is still None: TypeError on None[1]
    | TooFewButtons     // fewer than two paging buttons: IndexError on ctrl[1]
    | NoHref            // second paging button has no href: KeyError
    | NoPageNumber      // no `index<digits>.html` match: IndexError on findall(...)[0]
}
