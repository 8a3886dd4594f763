/** Why a request finished. */
module Reasons {

  datatype Reason = Stop | Length | Cancelled | Error
}
