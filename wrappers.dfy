/** Optional values: an absent dictionary key, a JSON null, a search that found nothing. */
module Wrappers {

  datatype Option<+T> = None | Some(value: T)
}
