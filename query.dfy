/**
 * The two admin queries `/api/admin/payments/paginated` and
 * `/api/admin/images/paginated`: a copy of the store's records is filtered
 * by optional conditions, counted, sorted, cut to one page, summarised and
 * joined with each owner's room number. Both only read the store.
 */
module Query {
  import opened Common
  import opened Text
  import opened Seqs
  import opened Sorting
  import opened Paging
  import opened Ranking
  import opened Records

  /** `sort_order === 'DESC'`; any other value sorts oldest first. */
  predicate Descending(sortOrder: string) {
    sortOrder == "DESC"
  }

  /** The first tenant whose id is strictly equal to `owner` sits at index `k`. */
  ghost predicate IsFirstTenant(tenants: seq<Tenant>, owner: Id, k: int) {
    0 <= k < |tenants| && Num(tenants[k].id) == owner
    && forall j :: 0 <= j < k ==> Num(tenants[j].id) != owner
  }

  /** `find` on the tenants stops at the first tenant whose id is the owner, and finds none when no id is. */
  lemma FirstTenantFound(tenants: seq<Tenant>, owner: Id)
    ensures forall k :: IsFirstTenant(tenants, owner, k) ==> FindIndex(tenants, TenantHasId(owner)) == Some(k)
    ensures (forall k :: 0 <= k < |tenants| ==> Num(tenants[k].id) != owner) ==> FindIndex(tenants, TenantHasId(owner)).None?
  {
    var r := FindIndex(tenants, TenantHasId(owner));
    forall k | IsFirstTenant(tenants, owner, k) ensures r == Some(k) {
      assert TenantHasId(owner)(tenants[k]);
    }
  }

  /** `tenant ? tenant.room_number : '--'` for `tenants.find(t => t.id === owner)`. */
  function RoomOf(tenants: seq<Tenant>, owner: Id): (room: string)
    ensures (forall k :: 0 <= k < |tenants| ==> Num(tenants[k].id) != owner) ==> room == "--"
    ensures forall k :: IsFirstTenant(tenants, owner, k) ==> room == tenants[k].roomNumber
  {
    match FindIndex(tenants, TenantHasId(owner))
    case None => "--"
    case Some(k) => tenants[k].roomNumber
  }

  datatype Pagination = Pagination(currentPage: int, perPage: int, totalPages: Option<int>, totalRecords: nat)

  // ---------------------------------------------------------------- payments

  /** The `sort_by` values modelled: the three timestamps and the numeric id. */
  datatype PaymentSortField = ByCreatedAt | ByUpdatedAt | ByPaymentDate | ById

  /** `new Date(p[sort_by] || p.created_at)`: an absent date or an id of 0 falls back to the creation time. */
  function PaymentKey(field: PaymentSortField): Payment -> int {
    (p: Payment) =>
      match field
      case ByCreatedAt => p.createdAt
      case ByUpdatedAt => p.updatedAt
      case ByPaymentDate => if p.paymentDate.Some? then p.paymentDate.value else p.createdAt
      case ById => if p.id != 0 then p.id else p.createdAt
  }

  /** The query string of the payments query; `tenant` is the raw `tenant_id` text. */
  datatype PaymentQuery = PaymentQuery(
    page: int,
    limit: int,
    status: string,
    tenant: string,
    search: string,
    sortBy: PaymentSortField,
    sortOrder: string)

  /** The defaults of the destructuring: page 1, 10 per page, no filter, newest created first. */
  const DefaultPaymentQuery: PaymentQuery := PaymentQuery(1, 10, "all", "all", "", ByCreatedAt, "DESC")

  function HasStatus(status: string): Payment -> bool {
    (p: Payment) => p.status == status
  }

  /** `p.tenant_id == tenant_id`, loose equality against the query text. */
  function PaymentOfTenant(tenant: string): Payment -> bool {
    (p: Payment) => LooseEquals(p.tenantId, tenant)
  }

  /** The name matches case-insensitively, the account digits case-sensitively. */
  function PaymentMentions(search: string): Payment -> bool {
    (p: Payment) => Contains(ToLower(p.tenantName), ToLower(search)) || Contains(p.accountLastFive, search)
  }

  /** The three optional stages, in the handler's order. */
  function FilterPayments(all: seq<Payment>, q: PaymentQuery): seq<Payment> {
    var byStatus := FilterIf(all, q.status != "all", HasStatus(q.status));
    var byTenant := FilterIf(byStatus, q.tenant != "all", PaymentOfTenant(q.tenant));
    FilterIf(byTenant, q.search != "", PaymentMentions(q.search))
  }

  /** When a payment answers the query, stated condition by condition. */
  predicate PaymentMatches(q: PaymentQuery, p: Payment) {
    (q.status == "all" || p.status == q.status)
    && (q.tenant == "all" || LooseEquals(p.tenantId, q.tenant))
    && (q.search == ""
        || Contains(ToLower(p.tenantName), ToLower(q.search))
        || Contains(p.accountLastFive, q.search))
  }

  function PaymentMatcher(q: PaymentQuery): Payment -> bool {
    (p: Payment) => PaymentMatches(q, p)
  }

  /** The implied conditions of the three stages, taken together, are the match. */
  lemma PaymentStagesAgree(q: PaymentQuery, x: Payment)
    ensures Both(Both(Implied(q.status != "all", HasStatus(q.status)),
                      Implied(q.tenant != "all", PaymentOfTenant(q.tenant))),
                 Implied(q.search != "", PaymentMentions(q.search)))(x)
         == PaymentMatcher(q)(x)
  {
  }

  /** The staged filter keeps exactly the matching payments, in store order. */
  lemma FilterPaymentsSpec(all: seq<Payment>, q: PaymentQuery)
    ensures FilterPayments(all, q) == Filter(all, PaymentMatcher(q))
  {
    var p1 := Implied(q.status != "all", HasStatus(q.status));
    var p2 := Implied(q.tenant != "all", PaymentOfTenant(q.tenant));
    var p3 := Implied(q.search != "", PaymentMentions(q.search));
    var s1 := FilterIf(all, q.status != "all", HasStatus(q.status));
    var s2 := FilterIf(s1, q.tenant != "all", PaymentOfTenant(q.tenant));
    FilterIfIsFilter(all, q.status != "all", HasStatus(q.status));
    assert s1 == Filter(all, p1);
    FilterIfIsFilter(s1, q.tenant != "all", PaymentOfTenant(q.tenant));
    FilterFuse(all, p1, p2);
    assert s2 == Filter(all, Both(p1, p2));
    FilterIfIsFilter(s2, q.search != "", PaymentMentions(q.search));
    FilterFuse(all, Both(p1, p2), p3);
    assert FilterPayments(all, q) == Filter(all, Both(Both(p1, p2), p3));
    forall x ensures Both(Both(p1, p2), p3)(x) == PaymentMatcher(q)(x) {
      PaymentStagesAgree(q, x);
    }
    FilterAgree(all, Both(Both(p1, p2), p3), PaymentMatcher(q));
  }

  /** With the default query every payment is listed. */
  lemma DefaultPaymentQueryKeepsAll(all: seq<Payment>)
    ensures FilterPayments(all, DefaultPaymentQuery) == all
  {
    FilterPaymentsSpec(all, DefaultPaymentQuery);
    FilterAll(all, PaymentMatcher(DefaultPaymentQuery));
  }

  function TotalAmountOf(p: Payment): real {
    p.totalAmount
  }

  datatype PaymentStatistics = PaymentStatistics(
    totalPayments: nat,
    pendingPayments: nat,
    confirmedPayments: nat,
    totalAmount: real)

  /** The `statistics` block, computed from the sorted list. */
  function StatisticsOf(s: seq<Payment>): PaymentStatistics {
    PaymentStatistics(|s|, |Filter(s, HasStatus("pending"))|, |Filter(s, HasStatus("confirmed"))|,
                      SumOf(s, TotalAmountOf))
  }

  datatype PaymentRow = PaymentRow(payment: Payment, roomNumber: string)

  function PaymentRows(page: seq<Payment>, tenants: seq<Tenant>): seq<PaymentRow> {
    seq(|page|, i requires 0 <= i < |page| => PaymentRow(page[i], RoomOf(tenants, page[i].tenantId)))
  }

  function PaymentsOfRows(rows: seq<PaymentRow>): seq<Payment> {
    seq(|rows|, i requires 0 <= i < |rows| => rows[i].payment)
  }

  lemma PaymentRowsKeepPage(page: seq<Payment>, tenants: seq<Tenant>)
    ensures PaymentsOfRows(PaymentRows(page, tenants)) == page
  {
  }

  datatype PaymentPage = PaymentPage(data: seq<PaymentRow>, pagination: Pagination, statistics: PaymentStatistics)

  /** The whole handler body after `checkAdmin`. */
  function PaymentsPage(payments: seq<Payment>, tenants: seq<Tenant>, q: PaymentQuery): PaymentPage {
    var filtered := FilterPayments(payments, q);
    var total := |filtered|;
    var sorted := SortBy(filtered, PaymentKey(q.sortBy), Descending(q.sortOrder));
    var page := PageOf(sorted, q.page, q.limit);
    PaymentPage(PaymentRows(page, tenants),
                Pagination(q.page, q.limit, TotalPages(total, q.limit), total),
                StatisticsOf(sorted))
  }

  /** The matching payments, as the query selects them before sorting. */
  function Matching(payments: seq<Payment>, q: PaymentQuery): seq<Payment> {
    Filter(payments, PaymentMatcher(q))
  }

  /** The counts: every matching payment is counted once, and the page count is `ceil(total / limit)`. */
  lemma PaymentsPageCounts(payments: seq<Payment>, tenants: seq<Tenant>, q: PaymentQuery)
    ensures var r := PaymentsPage(payments, tenants, q);
      && r.pagination.totalRecords == |Matching(payments, q)|
      && r.statistics.totalPayments == |Matching(payments, q)|
      && r.pagination.currentPage == q.page && r.pagination.perPage == q.limit
      && r.pagination.totalPages == TotalPages(|Matching(payments, q)|, q.limit)
  {
    FilterPaymentsSpec(payments, q);
    SortByLength(FilterPayments(payments, q), PaymentKey(q.sortBy), Descending(q.sortOrder));
  }

  /**
   * The statistics describe every matching payment, not just the page:
   * pending and confirmed counts and the amount total are those of the
   * matching set, and the two counts never exceed the total.
   */
  lemma PaymentsPageStatistics(payments: seq<Payment>, tenants: seq<Tenant>, q: PaymentQuery)
    ensures var st := PaymentsPage(payments, tenants, q).statistics;
      && st.pendingPayments == |Filter(Matching(payments, q), HasStatus("pending"))|
      && st.confirmedPayments == |Filter(Matching(payments, q), HasStatus("confirmed"))|
      && st.totalAmount == SumOf(Matching(payments, q), TotalAmountOf)
      && st.pendingPayments + st.confirmedPayments <= st.totalPayments
  {
    FilterPaymentsSpec(payments, q);
    var filtered := Matching(payments, q);
    var sorted := SortBy(filtered, PaymentKey(q.sortBy), Descending(q.sortOrder));
    FilterCountPermutation(sorted, filtered, HasStatus("pending"));
    FilterCountPermutation(sorted, filtered, HasStatus("confirmed"));
    SumOfPermutation(sorted, filtered, TotalAmountOf);
    DisjointCounts(sorted, HasStatus("pending"), HasStatus("confirmed"));
  }

  /**
   * A page of a real page number and limit: at most `limit` rows, each a
   * matching payment of the store, in the requested order, each with its
   * owner's room; an offset past the matches gives no rows.
   */
  lemma PaymentsPageRows(payments: seq<Payment>, tenants: seq<Tenant>, q: PaymentQuery)
    requires q.page >= 1 && q.limit >= 1
    ensures var r := PaymentsPage(payments, tenants, q);
      && |r.data| <= q.limit
      && (forall i :: 0 <= i < |r.data| ==>
            r.data[i].payment in payments && PaymentMatches(q, r.data[i].payment)
            && r.data[i].roomNumber == RoomOf(tenants, r.data[i].payment.tenantId))
      && SortedBy(PaymentsOfRows(r.data), PaymentKey(q.sortBy), Descending(q.sortOrder))
      && (Offset(q.page, q.limit) >= |Matching(payments, q)| ==> r.data == [])
  {
    FilterPaymentsSpec(payments, q);
    var filtered := FilterPayments(payments, q);
    assert filtered == Matching(payments, q);
    WindowFacts(filtered, PaymentKey(q.sortBy), Descending(q.sortOrder), q.page, q.limit);
    var w := Window(filtered, PaymentKey(q.sortBy), Descending(q.sortOrder), q.page, q.limit);
    var r := PaymentsPage(payments, tenants, q);
    assert r.data == PaymentRows(w, tenants);
    PaymentRowsKeepPage(w, tenants);
    forall i | 0 <= i < |r.data|
      ensures r.data[i].payment in payments && PaymentMatches(q, r.data[i].payment)
    {
      assert r.data[i].payment == w[i];
    }
  }

  /** `pages(k)` holds the payments the server lists on page `k` of the query, for every `k`. */
  ghost predicate ServedPaymentPages(payments: seq<Payment>, tenants: seq<Tenant>, q: PaymentQuery, pages: nat -> seq<Payment>) {
    forall k: nat :: 1 <= k ==> pages(k) == PaymentsOfRows(PaymentsPage(payments, tenants, q.(page := k)).data)
  }

  /** One page's payments are the query's window of the sorted matches. */
  lemma PaymentPageIsWindow(payments: seq<Payment>, tenants: seq<Tenant>, q: PaymentQuery)
    ensures PaymentsOfRows(PaymentsPage(payments, tenants, q).data)
         == Window(FilterPayments(payments, q), PaymentKey(q.sortBy), Descending(q.sortOrder), q.page, q.limit)
  {
    var w := Window(FilterPayments(payments, q), PaymentKey(q.sortBy), Descending(q.sortOrder), q.page, q.limit);
    assert PaymentsPage(payments, tenants, q).data == PaymentRows(w, tenants);
    PaymentRowsKeepPage(w, tenants);
  }

  /** Every page of the query is the matching window of the sorted matches. */
  lemma PaymentPagesAreWindows(payments: seq<Payment>, tenants: seq<Tenant>, q: PaymentQuery, pages: nat -> seq<Payment>)
    requires ServedPaymentPages(payments, tenants, q, pages)
    ensures forall k :: 1 <= k ==> pages(k) == Window(FilterPayments(payments, q), PaymentKey(q.sortBy), Descending(q.sortOrder), k, q.limit)
  {
    var filtered, key, desc := FilterPayments(payments, q), PaymentKey(q.sortBy), Descending(q.sortOrder);
    forall k: nat | 1 <= k
      ensures pages(k) == Window(filtered, key, desc, k, q.limit)
    {
      var qk := q.(page := k);
      PaymentPageIsWindow(payments, tenants, qk);
      assert FilterPayments(payments, qk) == filtered;
    }
  }

  /**
   * Paging through all reported pages shows the matching payments in the
   * requested order, so every one exactly as often as it is stored, and
   * nothing else.
   */
  lemma PaymentPagesCoverMatches(payments: seq<Payment>, tenants: seq<Tenant>, q: PaymentQuery, pages: nat -> seq<Payment>)
    requires q.limit >= 1
    requires ServedPaymentPages(payments, tenants, q, pages)
    ensures Concat(pages, PageCount(|Matching(payments, q)|, q.limit)) == SortBy(Matching(payments, q), PaymentKey(q.sortBy), Descending(q.sortOrder))
    ensures multiset(Concat(pages, PageCount(|Matching(payments, q)|, q.limit))) == multiset(Matching(payments, q))
  {
    PaymentPagesAreWindows(payments, tenants, q, pages);
    PagesCoverInput(pages, FilterPayments(payments, q), PaymentKey(q.sortBy), Descending(q.sortOrder), q.limit);
    FilterPaymentsSpec(payments, q);
  }

  // ------------------------------------------------------------------ images

  /** The `sort_by` values modelled for images: upload time, id and size. */
  datatype ImageSortField = ByUploadedAt | ByImageId | ByFileSize

  /** `new Date(i[sort_by] || i.uploaded_at)`: a zero id or size falls back to the upload time. */
  function ImageKey(field: ImageSortField): Image -> int {
    (img: Image) =>
      match field
      case ByUploadedAt => img.uploadedAt
      case ByImageId => if img.id != 0 then img.id else img.uploadedAt
      case ByFileSize => if img.fileSize != 0 then img.fileSize else img.uploadedAt
  }

  datatype ImageQuery = ImageQuery(
    page: int,
    limit: int,
    tenant: string,
    search: string,
    sortBy: ImageSortField,
    sortOrder: string)

  /** Page 1, 12 per page, every tenant, newest upload first. */
  const DefaultImageQuery: ImageQuery := ImageQuery(1, 12, "all", "", ByUploadedAt, "DESC")

  function ImageOfTenant(tenant: string): Image -> bool {
    (img: Image) => LooseEquals(img.tenantId, tenant)
  }

  /** Both the uploader's name and the file name are searched case-insensitively. */
  function ImageMentions(search: string): Image -> bool {
    (img: Image) => Contains(ToLower(img.tenantName), ToLower(search)) || Contains(ToLower(img.fileName), ToLower(search))
  }

  function FilterImages(all: seq<Image>, q: ImageQuery): seq<Image> {
    var byTenant := FilterIf(all, q.tenant != "all", ImageOfTenant(q.tenant));
    FilterIf(byTenant, q.search != "", ImageMentions(q.search))
  }

  predicate ImageMatches(q: ImageQuery, img: Image) {
    (q.tenant == "all" || LooseEquals(img.tenantId, q.tenant))
    && (q.search == ""
        || Contains(ToLower(img.tenantName), ToLower(q.search))
        || Contains(ToLower(img.fileName), ToLower(q.search)))
  }

  function ImageMatcher(q: ImageQuery): Image -> bool {
    (img: Image) => ImageMatches(q, img)
  }

  lemma FilterImagesSpec(all: seq<Image>, q: ImageQuery)
    ensures FilterImages(all, q) == Filter(all, ImageMatcher(q))
  {
    var p1 := Implied(q.tenant != "all", ImageOfTenant(q.tenant));
    var p2 := Implied(q.search != "", ImageMentions(q.search));
    var s1 := FilterIf(all, q.tenant != "all", ImageOfTenant(q.tenant));
    FilterIfIsFilter(all, q.tenant != "all", ImageOfTenant(q.tenant));
    FilterIfIsFilter(s1, q.search != "", ImageMentions(q.search));
    FilterFuse(all, p1, p2);
    forall x ensures Both(p1, p2)(x) == ImageMatcher(q)(x) {
    }
    FilterAgree(all, Both(p1, p2), ImageMatcher(q));
  }

  /** With the default query every image is listed. */
  lemma DefaultImageQueryKeepsAll(all: seq<Image>)
    ensures FilterImages(all, DefaultImageQuery) == all
  {
    FilterImagesSpec(all, DefaultImageQuery);
    FilterAll(all, ImageMatcher(DefaultImageQuery));
  }

  datatype ImageRow = ImageRow(image: Image, roomNumber: string)

  function ImageRows(page: seq<Image>, tenants: seq<Tenant>): seq<ImageRow> {
    seq(|page|, i requires 0 <= i < |page| => ImageRow(page[i], RoomOf(tenants, page[i].tenantId)))
  }

  function ImagesOfRows(rows: seq<ImageRow>): seq<Image> {
    seq(|rows|, i requires 0 <= i < |rows| => rows[i].image)
  }

  lemma ImageRowsKeepPage(page: seq<Image>, tenants: seq<Tenant>)
    ensures ImagesOfRows(ImageRows(page, tenants)) == page
  {
  }

  datatype ImagePage = ImagePage(data: seq<ImageRow>, pagination: Pagination)

  function ImagesPage(images: seq<Image>, tenants: seq<Tenant>, q: ImageQuery): ImagePage {
    var filtered := FilterImages(images, q);
    var total := |filtered|;
    var sorted := SortBy(filtered, ImageKey(q.sortBy), Descending(q.sortOrder));
    var page := PageOf(sorted, q.page, q.limit);
    ImagePage(ImageRows(page, tenants), Pagination(q.page, q.limit, TotalPages(total, q.limit), total))
  }

  function MatchingImages(images: seq<Image>, q: ImageQuery): seq<Image> {
    Filter(images, ImageMatcher(q))
  }

  lemma ImagesPageCounts(images: seq<Image>, tenants: seq<Tenant>, q: ImageQuery)
    ensures var r := ImagesPage(images, tenants, q);
      && r.pagination.totalRecords == |MatchingImages(images, q)|
      && r.pagination.currentPage == q.page && r.pagination.perPage == q.limit
      && r.pagination.totalPages == TotalPages(|MatchingImages(images, q)|, q.limit)
  {
    FilterImagesSpec(images, q);
  }

  lemma ImagesPageRows(images: seq<Image>, tenants: seq<Tenant>, q: ImageQuery)
    requires q.page >= 1 && q.limit >= 1
    ensures var r := ImagesPage(images, tenants, q);
      && |r.data| <= q.limit
      && (forall i :: 0 <= i < |r.data| ==>
            r.data[i].image in images && ImageMatches(q, r.data[i].image)
            && r.data[i].roomNumber == RoomOf(tenants, r.data[i].image.tenantId))
      && SortedBy(ImagesOfRows(r.data), ImageKey(q.sortBy), Descending(q.sortOrder))
      && (Offset(q.page, q.limit) >= |MatchingImages(images, q)| ==> r.data == [])
  {
    FilterImagesSpec(images, q);
    var filtered := FilterImages(images, q);
    assert filtered == MatchingImages(images, q);
    WindowFacts(filtered, ImageKey(q.sortBy), Descending(q.sortOrder), q.page, q.limit);
    var w := Window(filtered, ImageKey(q.sortBy), Descending(q.sortOrder), q.page, q.limit);
    var r := ImagesPage(images, tenants, q);
    assert r.data == ImageRows(w, tenants);
    ImageRowsKeepPage(w, tenants);
    forall i | 0 <= i < |r.data|
      ensures r.data[i].image in images && ImageMatches(q, r.data[i].image)
    {
      assert r.data[i].image == w[i];
    }
  }

  /** `pages(k)` holds the images the server lists on page `k` of the query, for every `k`. */
  ghost predicate ServedImagePages(images: seq<Image>, tenants: seq<Tenant>, q: ImageQuery, pages: nat -> seq<Image>) {
    forall k: nat :: 1 <= k ==> pages(k) == ImagesOfRows(ImagesPage(images, tenants, q.(page := k)).data)
  }

  /** One page's images are the query's window of the sorted matches. */
  lemma ImagePageIsWindow(images: seq<Image>, tenants: seq<Tenant>, q: ImageQuery)
    ensures ImagesOfRows(ImagesPage(images, tenants, q).data)
         == Window(FilterImages(images, q), ImageKey(q.sortBy), Descending(q.sortOrder), q.page, q.limit)
  {
    var w := Window(FilterImages(images, q), ImageKey(q.sortBy), Descending(q.sortOrder), q.page, q.limit);
    assert ImagesPage(images, tenants, q).data == ImageRows(w, tenants);
    ImageRowsKeepPage(w, tenants);
  }

  /** Every page of the query is the matching window of the sorted matches. */
  lemma ImagePagesAreWindows(images: seq<Image>, tenants: seq<Tenant>, q: ImageQuery, pages: nat -> seq<Image>)
    requires ServedImagePages(images, tenants, q, pages)
    ensures forall k :: 1 <= k ==> pages(k) == Window(FilterImages(images, q), ImageKey(q.sortBy), Descending(q.sortOrder), k, q.limit)
  {
    var filtered, key, desc := FilterImages(images, q), ImageKey(q.sortBy), Descending(q.sortOrder);
    forall k: nat | 1 <= k
      ensures pages(k) == Window(filtered, key, desc, k, q.limit)
    {
      var qk := q.(page := k);
      ImagePageIsWindow(images, tenants, qk);
      assert FilterImages(images, qk) == filtered;
    }
  }

  /** All reported pages together show the matching images in the requested order, each exactly as often as it is stored. */
  lemma ImagePagesCoverMatches(images: seq<Image>, tenants: seq<Tenant>, q: ImageQuery, pages: nat -> seq<Image>)
    requires q.limit >= 1
    requires ServedImagePages(images, tenants, q, pages)
    ensures Concat(pages, PageCount(|MatchingImages(images, q)|, q.limit)) == SortBy(MatchingImages(images, q), ImageKey(q.sortBy), Descending(q.sortOrder))
    ensures multiset(Concat(pages, PageCount(|MatchingImages(images, q)|, q.limit))) == multiset(MatchingImages(images, q))
  {
    ImagePagesAreWindows(images, tenants, q, pages);
    PagesCoverInput(pages, FilterImages(images, q), ImageKey(q.sortBy), Descending(q.sortOrder), q.limit);
    FilterImagesSpec(images, q);
  }
}
