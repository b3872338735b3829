/**
 * The shared in-memory store of backend/server.js (`sharedData`) and the
 * request handlers that read and change it. Each handler is a method of
 * `Store`; the caller's decoded token, the clock and the uploaded files are
 * parameters. Handlers guarded by checkAdmin answer `Forbidden` to any other
 * role before doing anything else.
 */
module RecordStore {
  import opened Common
  import opened Seqs
  import opened Records
  import opened Ledger
  import opened Uploads
  import opened Query
  import opened Listing

  /** The body of POST /api/register. */
  datatype Registration = Registration(
    username: string,
    password: string,
    name: string,
    roomNumber: string,
    email: string,
    phone: string,
    leaseStart: string,
    leaseEnd: string,
    rentAmount: string)

  /** The body of PUT /api/bank-info. */
  datatype BankForm = BankForm(bankName: string, branchName: string, accountName: string, accountNumber: string)

  /** What DELETE /api/admin/tenants/:id reports: the tenant's display name and how many records went with it. */
  datatype Deletion = Deletion(tenant: string, images: nat, payments: nat)

  /** No two tenants share a username. */
  ghost predicate UniqueUsernames(tenants: seq<Tenant>) {
    forall i, j :: 0 <= i < j < |tenants| ==> tenants[i].username != tenants[j].username
  }

  function NamedTenant(username: string): Tenant -> bool {
    (t: Tenant) => t.username == username
  }

  /** `tenants.some(t => t.username === username)`. */
  function UsernameInUse(tenants: seq<Tenant>, username: string): (taken: bool)
    ensures taken <==> exists i :: 0 <= i < |tenants| && tenants[i].username == username
  {
    FindIndex(tenants, NamedTenant(username)).Some?
  }

  /** The account registration creates; its id and creation time are the clock's `now`. */
  function NewTenant(form: Registration, now: int): Tenant {
    Tenant(now, form.username, form.password, form.name, form.email, form.phone, form.roomNumber,
           form.leaseStart, form.leaseEnd, form.rentAmount, "tenant", now)
  }

  /** Appending a tenant whose username is free keeps usernames unique. */
  lemma {:induction false} RegisterKeepsUsernamesUnique(tenants: seq<Tenant>, t: Tenant)
    requires UniqueUsernames(tenants)
    requires !UsernameInUse(tenants, t.username)
    ensures UniqueUsernames(tenants + [t])
  {
    var s := tenants + [t];
    forall i, j | 0 <= i < j < |s|
      ensures s[i].username != s[j].username
    {
      if j == |tenants| {
        assert s[i] == tenants[i];
      }
    }
  }

  /** Removing a tenant keeps usernames unique. */
  lemma {:induction false} RemoveKeepsUsernamesUnique(tenants: seq<Tenant>, k: nat)
    requires k < |tenants|
    requires UniqueUsernames(tenants)
    ensures UniqueUsernames(RemoveAt(tenants, k))
  {
    var s := RemoveAt(tenants, k);
    forall i, j | 0 <= i < j < |s|
      ensures s[i].username != s[j].username
    {
      var i', j' := if i < k then i else i + 1, if j < k then j else j + 1;
      assert s[i] == tenants[i'] && s[j] == tenants[j'];
    }
  }

  /** The account seeded when no data file exists. */
  function SeedTenant(now: int): Tenant {
    Tenant(2, "tenant", "123456", "測試租客", "tenant@example.com", "0911111111", "101",
           "2024-01-01", "2024-12-31", "15000", "tenant", now)
  }

  function DefaultBankInfo(now: int): BankInfo {
    BankInfo("元大銀行", "營業部", "廣大城", "1111-2222-3333", now)
  }

  /** `p.id === paymentId`. */
  function PaymentHasId(id: int): Payment -> bool {
    (p: Payment) => p.id == id
  }

  /** `img.id === imageId`. */
  function ImageHasId(id: int): Image -> bool {
    (img: Image) => img.id == id
  }

  /** `tenant.name || tenant.username`. */
  function TenantDisplayName(t: Tenant): string {
    if t.name != "" then t.name else t.username
  }

  /** The records a multiple upload appends, numbered on from `count` records already stored. */
  function UploadBatch(count: int, caller: Identity, files: seq<UploadedFile>, stamps: seq<Stamp>): seq<Image>
    requires |stamps| == |files|
  {
    seq(|files|, i requires 0 <= i < |files| => UploadedImage(count + i + 1, caller, files[i], stamps[i]))
  }

  /**
   * A batch gets one record per file, consecutive ids after the current
   * count, the caller as owner, and each file's own name and size.
   */
  lemma UploadBatchFields(count: int, caller: Identity, files: seq<UploadedFile>, stamps: seq<Stamp>)
    requires |stamps| == |files|
    ensures var batch := UploadBatch(count, caller, files, stamps);
      && |batch| == |files|
      && forall i :: 0 <= i < |batch| ==>
           batch[i].id == count + i + 1 && batch[i].tenantId == caller.id
           && batch[i].fileName == files[i].originalName && batch[i].fileSize == files[i].size
           && batch[i].fileType == Some(files[i].mimeType) && batch[i].uploadedAt == stamps[i].uploadedAt
  {
  }

  /**
   * What the cascade keeps of a collection: exactly the records of other
   * owners, each as often as before, and the kept and dropped counts add
   * up to the old count.
   */
  lemma CascadeImages(images: seq<Image>, owner: Id, x: Image)
    ensures multiset(Filter(images, Not(ImageOwnedBy(owner))))[x]
         == if x.tenantId == owner then 0 else multiset(images)[x]
    ensures forall y :: y in Filter(images, Not(ImageOwnedBy(owner))) ==> y.tenantId != owner
    ensures |Filter(images, ImageOwnedBy(owner))| + |Filter(images, Not(ImageOwnedBy(owner)))| == |images|
  {
    FilterMultiplicity(images, Not(ImageOwnedBy(owner)), x);
    FilterPartition(images, ImageOwnedBy(owner));
  }

  lemma CascadePayments(payments: seq<Payment>, owner: Id, x: Payment)
    ensures multiset(Filter(payments, Not(PaymentOwnedBy(owner))))[x]
         == if x.tenantId == owner then 0 else multiset(payments)[x]
    ensures forall y :: y in Filter(payments, Not(PaymentOwnedBy(owner))) ==> y.tenantId != owner
    ensures |Filter(payments, PaymentOwnedBy(owner))| + |Filter(payments, Not(PaymentOwnedBy(owner)))| == |payments|
  {
    FilterMultiplicity(payments, Not(PaymentOwnedBy(owner)), x);
    FilterPartition(payments, PaymentOwnedBy(owner));
  }

  /**
   * Ids come from the record count, so a delete followed by an upload can
   * hand out an id that is still in use.
   */
  lemma IdsCanRepeat(a: Image, b: Image, caller: Identity, f: UploadedFile, stamp: Stamp)
    requires a.id == 1 && b.id == 2
    ensures var left := RemoveAt([a, b], 0);
      UploadedImage(|left| + 1, caller, f, stamp).id == left[0].id
  {
  }

  class Store {
    var tenants: seq<Tenant>
    var payments: seq<Payment>
    var images: seq<Image>
    var bankInfo: BankInfo

    ghost predicate Valid()
      reads this
    {
      UniqueUsernames(tenants)
    }

    /** A fresh start: no data file, so the test tenant is seeded next to the default bank account. */
    constructor (now: int)
      ensures Valid()
      ensures tenants == [SeedTenant(now)] && payments == [] && images == []
      ensures bankInfo == DefaultBankInfo(now)
    {
      tenants := [SeedTenant(now)];
      payments := [];
      images := [];
      bankInfo := DefaultBankInfo(now);
    }

    /** POST /api/register. */
    method Register(form: Registration, now: int) returns (r: Result<PublicTenant>)
      requires Valid()
      modifies this
      ensures Valid()
      ensures UsernameInUse(old(tenants), form.username) ==> r == Err(UsernameTaken) && tenants == old(tenants)
      ensures !UsernameInUse(old(tenants), form.username) ==>
                r == Ok(WithoutPassword(NewTenant(form, now))) && tenants == old(tenants) + [NewTenant(form, now)]
      ensures payments == old(payments) && images == old(images) && bankInfo == old(bankInfo)
    {
      if UsernameInUse(tenants, form.username) {
        return Err(UsernameTaken);
      }
      var t := NewTenant(form, now);
      RegisterKeepsUsernamesUnique(tenants, t);
      tenants := tenants + [t];
      r := Ok(WithoutPassword(t));
    }

    /** GET /api/bank-info: any signed-in caller reads the stored account. */
    method GetBankInfo() returns (info: BankInfo)
      ensures info == bankInfo
    {
      info := bankInfo;
    }

    /** PUT /api/bank-info: an admin replaces the whole account, stamped `now`. */
    method UpdateBankInfo(caller: Identity, form: BankForm, now: int) returns (r: Result<BankInfo>)
      requires Valid()
      modifies this
      ensures Valid()
      ensures !IsAdmin(caller) ==> r == Err(Forbidden) && bankInfo == old(bankInfo)
      ensures IsAdmin(caller) ==>
                bankInfo == BankInfo(form.bankName, form.branchName, form.accountName, form.accountNumber, now)
                && r == Ok(bankInfo)
      ensures tenants == old(tenants) && payments == old(payments) && images == old(images)
    {
      if !IsAdmin(caller) {
        return Err(Forbidden);
      }
      bankInfo := BankInfo(form.bankName, form.branchName, form.accountName, form.accountNumber, now);
      r := Ok(bankInfo);
    }

    /**
     * GET /api/payments. For an admin the list is the store's own array, so
     * the sort reorders the stored payments too.
     */
    method ListPayments(caller: Identity) returns (list: seq<Payment>)
      requires Valid()
      modifies this
      ensures Valid()
      ensures list == PaymentListing(old(payments), caller)
      ensures payments == if IsAdmin(caller) then list else old(payments)
      ensures multiset(payments) == multiset(old(payments))
      ensures tenants == old(tenants) && images == old(images) && bankInfo == old(bankInfo)
    {
      list := PaymentListing(payments, caller);
      if IsAdmin(caller) {
        payments := list;
      }
    }

    /** GET /api/images, with the same aliasing for an admin. */
    method ListImages(caller: Identity) returns (list: seq<Image>)
      requires Valid()
      modifies this
      ensures Valid()
      ensures list == ImageListing(old(images), caller)
      ensures images == if IsAdmin(caller) then list else old(images)
      ensures multiset(images) == multiset(old(images))
      ensures tenants == old(tenants) && payments == old(payments) && bankInfo == old(bankInfo)
    {
      list := ImageListing(images, caller);
      if IsAdmin(caller) {
        images := list;
      }
    }

    /** POST /api/payments: the new record is numbered one past the current count. */
    method CreatePayment(caller: Identity, form: PaymentForm, now: int) returns (p: Payment)
      requires Valid()
      modifies this
      ensures Valid()
      ensures p == NewPayment(form, caller, |old(payments)| + 1, now)
      ensures payments == old(payments) + [p]
      ensures tenants == old(tenants) && images == old(images) && bankInfo == old(bankInfo)
    {
      p := NewPayment(form, caller, |payments| + 1, now);
      payments := payments + [p];
    }

    /** PUT /api/payments/:id: an admin sets any status on the first payment with that id. */
    method UpdatePaymentStatus(caller: Identity, id: int, status: string, now: int) returns (r: Result<Payment>)
      requires Valid()
      modifies this
      ensures Valid()
      ensures !IsAdmin(caller) ==> r == Err(Forbidden) && payments == old(payments)
      ensures IsAdmin(caller) && FindIndex(old(payments), PaymentHasId(id)).None? ==>
                r == Err(NotFound) && payments == old(payments)
      ensures IsAdmin(caller) && FindIndex(old(payments), PaymentHasId(id)).Some? ==>
                var k := FindIndex(old(payments), PaymentHasId(id)).value;
                payments == old(payments)[k := WithStatus(old(payments)[k], status, now)]
                && r == Ok(payments[k])
      ensures tenants == old(tenants) && images == old(images) && bankInfo == old(bankInfo)
    {
      if !IsAdmin(caller) {
        return Err(Forbidden);
      }
      match FindIndex(payments, PaymentHasId(id)) {
        case None =>
          r := Err(NotFound);
        case Some(k) =>
          payments := payments[k := WithStatus(payments[k], status, now)];
          r := Ok(payments[k]);
      }
    }

    /**
     * PUT /api/admin/payments/:id/status: as above, but a status other than
     * pending or confirmed is refused before the payment is looked up.
     */
    method UpdatePaymentStatusChecked(caller: Identity, id: int, status: string, now: int) returns (r: Result<()>)
      requires Valid()
      modifies this
      ensures Valid()
      ensures !IsAdmin(caller) ==> r == Err(Forbidden) && payments == old(payments)
      ensures IsAdmin(caller) && !IsKnownStatus(status) ==> r == Err(InvalidStatus) && payments == old(payments)
      ensures IsAdmin(caller) && IsKnownStatus(status) && FindIndex(old(payments), PaymentHasId(id)).None? ==>
                r == Err(NotFound) && payments == old(payments)
      ensures IsAdmin(caller) && IsKnownStatus(status) && FindIndex(old(payments), PaymentHasId(id)).Some? ==>
                r == Ok(())
                && var k := FindIndex(old(payments), PaymentHasId(id)).value;
                   payments == old(payments)[k := WithStatus(old(payments)[k], status, now)]
      ensures tenants == old(tenants) && images == old(images) && bankInfo == old(bankInfo)
    {
      if !IsAdmin(caller) {
        return Err(Forbidden);
      }
      if !IsKnownStatus(status) {
        return Err(InvalidStatus);
      }
      match FindIndex(payments, PaymentHasId(id)) {
        case None =>
          r := Err(NotFound);
        case Some(k) =>
          payments := payments[k := WithStatus(payments[k], status, now)];
          r := Ok(());
      }
    }

    /**
     * POST /api/images/upload. Multer's checks run first; a request without
     * a file gets through multer and is refused by the handler.
     */
    method UploadImage(caller: Identity, file: Option<UploadedFile>, stamp: Stamp) returns (r: Result<Image>)
      requires Valid()
      modifies this
      ensures Valid()
      ensures file.Some? && !MulterAccepts([file.value]) ==> r == Err(UploadRejected) && images == old(images)
      ensures file.None? ==> r == Err(NoFileSelected) && images == old(images)
      ensures file.Some? && MulterAccepts([file.value]) ==>
                r == Ok(UploadedImage(|old(images)| + 1, caller, file.value, stamp))
                && images == old(images) + [r.value]
      ensures tenants == old(tenants) && payments == old(payments) && bankInfo == old(bankInfo)
    {
      match file {
        case None =>
          r := Err(NoFileSelected);
        case Some(f) =>
          if !MulterAccepts([f]) {
            return Err(UploadRejected);
          }
          var img := UploadedImage(|images| + 1, caller, f, stamp);
          images := images + [img];
          r := Ok(img);
      }
    }

    /**
     * POST /api/images/upload-multiple: one record per file, each numbered
     * from the count at the moment it is appended. `stamps[i]` is what the
     * clock and the random generator give the i-th file.
     */
    method UploadImages(caller: Identity, files: seq<UploadedFile>, stamps: seq<Stamp>) returns (r: Result<seq<Image>>)
      requires Valid()
      requires |stamps| == |files|
      modifies this
      ensures Valid()
      ensures !MulterAccepts(files) ==> r == Err(UploadRejected) && images == old(images)
      ensures MulterAccepts(files) && files == [] ==> r == Err(NoFileSelected) && images == old(images)
      ensures MulterAccepts(files) && files != [] ==>
                r == Ok(UploadBatch(|old(images)|, caller, files, stamps))
                && images == old(images) + r.value
      ensures tenants == old(tenants) && payments == old(payments) && bankInfo == old(bankInfo)
    {
      if !MulterAccepts(files) {
        return Err(UploadRejected);
      }
      if files == [] {
        return Err(NoFileSelected);
      }
      var uploaded := AppendBatch(caller, files, stamps);
      r := Ok(uploaded);
    }

    /** The handler's `for` loop: each file's record is appended as the next image. */
    method AppendBatch(caller: Identity, files: seq<UploadedFile>, stamps: seq<Stamp>) returns (uploaded: seq<Image>)
      requires |stamps| == |files|
      modifies this
      ensures uploaded == UploadBatch(|old(images)|, caller, files, stamps)
      ensures images == old(images) + uploaded
      ensures tenants == old(tenants) && payments == old(payments) && bankInfo == old(bankInfo)
    {
      var count := |images|;
      ghost var batch := UploadBatch(count, caller, files, stamps);
      uploaded := [];
      var i := 0;
      while i < |files|
        invariant 0 <= i <= |files|
        invariant uploaded == batch[..i]
        invariant images == old(images) + uploaded
        invariant tenants == old(tenants) && payments == old(payments) && bankInfo == old(bankInfo)
      {
        var img := UploadedImage(|images| + 1, caller, files[i], stamps[i]);
        assert img == batch[i];
        assert batch[..i + 1] == batch[..i] + [img];
        images := images + [img];
        uploaded := uploaded + [img];
        i := i + 1;
      }
      assert batch[..i] == batch;
    }

    /** POST /api/images/save: registers a file stored elsewhere; the record has no file type. */
    method SaveImage(caller: Identity, imageUrl: string, fileName: string, fileSize: int, now: int) returns (img: Image)
      requires Valid()
      modifies this
      ensures Valid()
      ensures img == Image(|old(images)| + 1, caller.id, DisplayName(caller), imageUrl, fileName, fileSize, None, now)
      ensures images == old(images) + [img]
      ensures tenants == old(tenants) && payments == old(payments) && bankInfo == old(bankInfo)
    {
      img := Image(|images| + 1, caller.id, DisplayName(caller), imageUrl, fileName, fileSize, None, now);
      images := images + [img];
    }

    /**
     * DELETE /api/images/:id: the first image with that id goes, provided the
     * caller is an admin or the image's owner.
     */
    method DeleteImage(caller: Identity, id: int) returns (r: Result<()>)
      requires Valid()
      modifies this
      ensures Valid()
      ensures FindIndex(old(images), ImageHasId(id)).None? ==> r == Err(NotFound) && images == old(images)
      ensures FindIndex(old(images), ImageHasId(id)).Some? ==>
                var k := FindIndex(old(images), ImageHasId(id)).value;
                if !IsAdmin(caller) && old(images)[k].tenantId != caller.id
                then r == Err(Forbidden) && images == old(images)
                else r == Ok(()) && images == RemoveAt(old(images), k)
      ensures tenants == old(tenants) && payments == old(payments) && bankInfo == old(bankInfo)
    {
      match FindIndex(images, ImageHasId(id)) {
        case None =>
          r := Err(NotFound);
        case Some(k) =>
          if !IsAdmin(caller) && images[k].tenantId != caller.id {
            return Err(Forbidden);
          }
          images := RemoveAt(images, k);
          r := Ok(());
      }
    }

    /** GET /api/admin/tenants: every tenant without the password. */
    method ListTenants(caller: Identity) returns (r: Result<seq<PublicTenant>>)
      ensures !IsAdmin(caller) ==> r == Err(Forbidden)
      ensures IsAdmin(caller) ==>
                r.Ok? && |r.value| == |tenants|
                && forall i :: 0 <= i < |tenants| ==> r.value[i] == WithoutPassword(tenants[i])
    {
      if !IsAdmin(caller) {
        return Err(Forbidden);
      }
      r := Ok(seq(|tenants|, i requires 0 <= i < |tenants| reads this => WithoutPassword(tenants[i])));
    }

    /**
     * DELETE /api/admin/tenants/:id: the first tenant with that id goes, and
     * with it every image and payment whose owner is that id.
     */
    method DeleteTenant(caller: Identity, id: int) returns (r: Result<Deletion>)
      requires Valid()
      modifies this
      ensures Valid()
      ensures !IsAdmin(caller) ==> r == Err(Forbidden)
      ensures !IsAdmin(caller) || FindIndex(old(tenants), TenantHasId(Num(id))).None? ==>
                tenants == old(tenants) && payments == old(payments) && images == old(images)
      ensures IsAdmin(caller) && FindIndex(old(tenants), TenantHasId(Num(id))).None? ==> r == Err(NotFound)
      ensures IsAdmin(caller) && FindIndex(old(tenants), TenantHasId(Num(id))).Some? ==>
                var k := FindIndex(old(tenants), TenantHasId(Num(id))).value;
                && tenants == RemoveAt(old(tenants), k)
                && images == Filter(old(images), Not(ImageOwnedBy(Num(id))))
                && payments == Filter(old(payments), Not(PaymentOwnedBy(Num(id))))
                && r == Ok(Deletion(TenantDisplayName(old(tenants)[k]),
                                    |Filter(old(images), ImageOwnedBy(Num(id)))|,
                                    |Filter(old(payments), PaymentOwnedBy(Num(id)))|))
      ensures bankInfo == old(bankInfo)
    {
      if !IsAdmin(caller) {
        return Err(Forbidden);
      }
      match FindIndex(tenants, TenantHasId(Num(id))) {
        case None =>
          r := Err(NotFound);
        case Some(k) =>
          var name := TenantDisplayName(tenants[k]);
          var owner := Num(id);
          var removedImages := Filter(images, ImageOwnedBy(owner));
          var removedPayments := Filter(payments, PaymentOwnedBy(owner));
          images := Filter(images, Not(ImageOwnedBy(owner)));
          payments := Filter(payments, Not(PaymentOwnedBy(owner)));
          RemoveKeepsUsernamesUnique(tenants, k);
          tenants := RemoveAt(tenants, k);
          r := Ok(Deletion(name, |removedImages|, |removedPayments|));
      }
    }

    /** GET /api/admin/dashboard. */
    method Dashboard(caller: Identity) returns (r: Result<Dashboard>)
      ensures !IsAdmin(caller) ==> r == Err(Forbidden)
      ensures IsAdmin(caller) ==> r == Ok(DashboardOf(tenants, payments, images))
    {
      if !IsAdmin(caller) {
        return Err(Forbidden);
      }
      r := Ok(DashboardOf(tenants, payments, images));
    }

    /** GET /api/profile: the first tenant whose id is strictly the caller's id, without the password. */
    method Profile(caller: Identity) returns (r: Result<PublicTenant>)
      ensures (forall k :: 0 <= k < |tenants| ==> Num(tenants[k].id) != caller.id) ==> r == Err(NotFound)
      ensures forall k :: IsFirstTenant(tenants, caller.id, k) ==> r == Ok(WithoutPassword(tenants[k]))
    {
      FirstTenantFound(tenants, caller.id);
      match FindIndex(tenants, TenantHasId(caller.id)) {
        case None =>
          r := Err(NotFound);
        case Some(k) =>
          r := Ok(WithoutPassword(tenants[k]));
      }
    }

    /** GET /api/admin/payments/paginated; it only reads the store. */
    method PaginatedPayments(caller: Identity, q: PaymentQuery) returns (r: Result<PaymentPage>)
      ensures !IsAdmin(caller) ==> r == Err(Forbidden)
      ensures IsAdmin(caller) ==> r == Ok(PaymentsPage(payments, tenants, q))
    {
      if !IsAdmin(caller) {
        return Err(Forbidden);
      }
      r := Ok(PaymentsPage(payments, tenants, q));
    }

    /** GET /api/admin/images/paginated; it only reads the store. */
    method PaginatedImages(caller: Identity, q: ImageQuery) returns (r: Result<ImagePage>)
      ensures !IsAdmin(caller) ==> r == Err(Forbidden)
      ensures IsAdmin(caller) ==> r == Ok(ImagesPage(images, tenants, q))
    {
      if !IsAdmin(caller) {
        return Err(Forbidden);
      }
      r := Ok(ImagesPage(images, tenants, q));
    }
  }
}
