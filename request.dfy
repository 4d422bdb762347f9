/** The paging parameters of package `request` shared by the two page
    normalisers. */
module Request {
  import opened Util

  /** `request.Page`: page number, page size and the SQL order clause. */
  datatype Page = Page(page: Int64, size: Int64, sort: string)
}
