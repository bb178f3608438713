/** Optional values, shared by the serializer and the log query. */
module Envoltorios {

  datatype Option<T> = None | Some(valor: T)

}
