/**
 * The read side of GET /api/payments, GET /api/images and the admin
 * dashboard: which records a caller sees and in which order, and the
 * dashboard's counts and newest-ten lists.
 */
module Listing {
  import opened Common
  import opened Seqs
  import opened Sorting
  import opened Paging
  import opened Ranking
  import opened Records
  import opened Query

  /** An admin sees every payment, anyone else the payments whose `tenant_id` is their id. */
  function PaymentScope(payments: seq<Payment>, caller: Identity): seq<Payment> {
    if IsAdmin(caller) then payments else Filter(payments, PaymentOwnedBy(caller.id))
  }

  /** `new Date(p.payment_date || p.created_at)`, newest first. */
  function PaymentListing(payments: seq<Payment>, caller: Identity): seq<Payment> {
    SortBy(PaymentScope(payments, caller), PaymentKey(ByPaymentDate), true)
  }

  /**
   * The listing holds each stored payment the caller may see, as often as
   * it is stored, no other record, newest payment date first.
   */
  lemma PaymentListingSpec(payments: seq<Payment>, caller: Identity, x: Payment)
    ensures multiset(PaymentListing(payments, caller))[x]
         == if IsAdmin(caller) || x.tenantId == caller.id then multiset(payments)[x] else 0
    ensures SortedBy(PaymentListing(payments, caller), PaymentKey(ByPaymentDate), true)
    ensures |PaymentListing(payments, caller)| <= |payments|
  {
    SortByLength(PaymentScope(payments, caller), PaymentKey(ByPaymentDate), true);
    if !IsAdmin(caller) {
      FilterMultiplicity(payments, PaymentOwnedBy(caller.id), x);
    }
  }

  function ImageScope(images: seq<Image>, caller: Identity): seq<Image> {
    if IsAdmin(caller) then images else Filter(images, ImageOwnedBy(caller.id))
  }

  /** `new Date(img.uploaded_at)`, newest first. */
  function ImageListing(images: seq<Image>, caller: Identity): seq<Image> {
    SortBy(ImageScope(images, caller), ImageKey(ByUploadedAt), true)
  }

  lemma ImageListingSpec(images: seq<Image>, caller: Identity, x: Image)
    ensures multiset(ImageListing(images, caller))[x]
         == if IsAdmin(caller) || x.tenantId == caller.id then multiset(images)[x] else 0
    ensures SortedBy(ImageListing(images, caller), ImageKey(ByUploadedAt), true)
    ensures |ImageListing(images, caller)| <= |images|
  {
    SortByLength(ImageScope(images, caller), ImageKey(ByUploadedAt), true);
    if !IsAdmin(caller) {
      FilterMultiplicity(images, ImageOwnedBy(caller.id), x);
    }
  }

  /** How many records each recent list keeps. */
  const RecentCount: nat := 10

  datatype Dashboard = Dashboard(
    totalTenants: nat,
    totalPayments: nat,
    pendingPayments: nat,
    totalImages: nat,
    recentPayments: seq<Payment>,
    recentImages: seq<Image>)

  function CreatedAtOf(p: Payment): int {
    p.createdAt
  }

  function UploadedAtOf(img: Image): int {
    img.uploadedAt
  }

  /** The body of GET /api/admin/dashboard, read from the three collections. */
  function DashboardOf(tenants: seq<Tenant>, payments: seq<Payment>, images: seq<Image>): Dashboard {
    Dashboard(|tenants|, |payments|, |Filter(payments, HasStatus("pending"))|, |images|,
              Newest(payments, CreatedAtOf, RecentCount), Newest(images, UploadedAtOf, RecentCount))
  }

  /** The dashboard counts every record, and its pending count is at most its payment count. */
  lemma DashboardCounts(tenants: seq<Tenant>, payments: seq<Payment>, images: seq<Image>)
    ensures var d := DashboardOf(tenants, payments, images);
      && d.totalTenants == |tenants| && d.totalPayments == |payments| && d.totalImages == |images|
      && d.pendingPayments <= d.totalPayments
      && d.pendingPayments + |Filter(payments, Not(HasStatus("pending")))| == d.totalPayments
  {
    FilterPartition(payments, HasStatus("pending"));
  }

  /**
   * The recent payments are the ten newest by creation time (or all of
   * them), none shown more often than stored, newest first, and no payment
   * left out is newer than one shown.
   */
  lemma DashboardRecentPayments(tenants: seq<Tenant>, payments: seq<Payment>, images: seq<Image>)
    ensures var r := DashboardOf(tenants, payments, images).recentPayments;
      && |r| == Min(RecentCount, |payments|)
      && multiset(r) <= multiset(payments)
      && (forall p :: p in r ==> p in payments)
      && SortedBy(r, CreatedAtOf, true)
      && (forall p, other :: p in r && other in payments && other !in r ==> other.createdAt <= p.createdAt)
  {
    var r := Newest(payments, CreatedAtOf, RecentCount);
    assert DashboardOf(tenants, payments, images).recentPayments == r;
    NewestFacts(payments, CreatedAtOf, RecentCount);
    forall p, other | p in r && other in payments && other !in r
      ensures other.createdAt <= p.createdAt
    {
      assert CreatedAtOf(other) <= CreatedAtOf(p);
    }
  }

  /** The same for images, by upload time. */
  lemma DashboardRecentImages(tenants: seq<Tenant>, payments: seq<Payment>, images: seq<Image>)
    ensures var r := DashboardOf(tenants, payments, images).recentImages;
      && |r| == Min(RecentCount, |images|)
      && multiset(r) <= multiset(images)
      && (forall img :: img in r ==> img in images)
      && SortedBy(r, UploadedAtOf, true)
      && (forall img, other :: img in r && other in images && other !in r ==> other.uploadedAt <= img.uploadedAt)
  {
    var r := Newest(images, UploadedAtOf, RecentCount);
    assert DashboardOf(tenants, payments, images).recentImages == r;
    NewestFacts(images, UploadedAtOf, RecentCount);
    forall img, other | img in r && other in images && other !in r
      ensures other.uploadedAt <= img.uploadedAt
    {
      assert UploadedAtOf(other) <= UploadedAtOf(img);
    }
  }
}
