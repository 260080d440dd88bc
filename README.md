# Community charity platform — a Dafny model of its request handlers and pages

The platform is a Next.js application. Donors give to campaigns, organisations
(NGOs) run campaigns and volunteer opportunities, volunteers apply, and an
administrator approves organisations. This project models the application's
decision logic in Dafny and proves properties of it:

- **API routes.** Each route handler is a function from the request and the
  store to a response and the store it leaves (`Step`). A `method` on the
  `Database` class performs that step in place. The store is kept as one
  sequence per table, in insertion order. The properties proved are:
  - the order in which errors take precedence;
  - which fields a write touches;
  - the store's integrity constraints (`WellFormed`);
  - the link between role and organisation (`OrgRoleConsistent`).
- **The token gate** of `lib/middleware.ts` and the local copies of it in
  several routes. jsonwebtoken's `verify` is a map from accepted tokens to
  their claims.
- **Listings with impact figures.** These are the per-organisation
  beneficiaries, project count and success rate, computed on exact reals.
- **Client pages and components.** Pages that update component state step by
  step are classes whose methods change their fields. Filters, formatters and
  role→route tables are functions. Fetch outcomes, stored tokens, clocks and
  `Number()` parsing are inputs, and navigation is a returned or stored route.

Modules follow the source files, one module per file:

| module | source |
|---|---|
| `Common` | shared string, list and number helpers (JavaScript `trim`, `\s`, `toLowerCase`, `Math.round`, `split`/`join`) |
| `Store` | the tables, the `Database` class, the identifier counter and the integrity constraints |
| `Middleware`, `OrgGate` | `lib/middleware.ts` and the Bearer/organisation preamble repeated by several routes |
| `AuthRegister`, `AuthLogin`, `NgoRegister` | the three registration/login routes |
| `Campaigns`, `OrganizationApi`, `VolunteerOpportunities`, `VolunteerApplications`, `Donations` | the resource routes |
| `AdminApproveNgo`, `AdminNgoStatus`, `OrganizationVolunteers`, `NgoListings` | the admin and organisation routes |
| `OpportunityForm`, `NgoApproval`, `AdminDashboard`, `NgoVolunteersPage`, `NgoDashboard`, `CampaignsPage`, `VolunteerPage`, `NgosPage`, `DonorDonations`, `DonorDashboard`, `VolunteerDashboard`, `OrganizationDashboard`, `NgoCampaignsPage`, `CampaignCard`, `DonationModal`, `RegisterPage`, `LoginPage`, `DashboardPage`, `OrganizationLayout` | the client pages and components |

The code spells statuses three ways:

- The admin dashboard compares statuses in lower case (`pending`).
- The approval panel compares them capitalised (`Pending`).
- The API writes them in upper case (`PENDING`).

All of these are kept as the strings the code uses.

## Model

| member | source | states |
|---|---|---|
| Middleware.VerifyToken | lib/middleware.ts:3-11 | no header fails with 'No token provided' before any verification; a token that does not verify fails; with an empty role list every verified payload is admitted, otherwise exactly those whose role is listed, and the rest fail with 'Forbidden'; the payload is returned unchanged |
| Middleware.VerifyAdmin | lib/middleware.ts:14-16 | admits exactly verified ADMIN callers |
| Middleware.VerifyAdminOrNgo | lib/middleware.ts:18-20 | admits exactly verified ADMIN or ORGANIZATION callers |
| Middleware.FirstWordIgnored | lib/middleware.ts:6 | only the second space-separated word of the header is inspected; any first word gives the same verdict |
| Middleware.SecondWordAfter | lib/middleware.ts:6 | the token taken is the piece after the first space |
| Middleware.BearerToken | app/api/campaigns/route.ts:9-18 | after the 'Bearer ' test passes, the token examined is the first space-free piece after the scheme |
| Middleware.LowerCaseSchemeRejected | app/api/campaigns/route.ts:9 | the scheme test is case-sensitive: 'bearer ' fails it |
| OrgGate.Decode | app/api/campaigns/route.ts:9-18 | a header not starting with exactly 'Bearer ' is refused as Unauthorized; otherwise the result is the verified claims |
| OrgGate.Resolve | app/api/campaigns/route.ts:9-32 | header refusals propagate; NoOrganization iff the claims verify but no organisation is owned by the caller; success names the first organisation in store order that the caller owns (`findFirst`) |
| OrgGate.OwnerExists | app/api/campaigns/route.ts:27-32 | in a well-formed store the resolved caller exists as a user |
| OrgGate.Refusal | app/api/campaigns/route.ts:10-51 | each preamble refusal becomes a failure response (401 Unauthorized, 404 'Organization not found', 500 for a token that does not verify) |
| AuthRegister.EmailPatternShape | app/api/auth/register/route.ts:30-37 | the e-mail regular expression matches exactly the strings with one '@', no white space, a non-empty local part and a '.' inside the domain with a character on each side |
| AuthRegister.PatternGivesShape | app/api/auth/register/route.ts:30 | a match of the pattern has the shape above |
| AuthRegister.ShapeGivesPattern | app/api/auth/register/route.ts:30 | a string of that shape matches the pattern |
| AuthRegister.Handle | app/api/auth/register/route.ts:21-127 | missing fields, then e-mail format, then password length (in UTF-16 units), then 'Invalid role', then 'User already exists', each a 400 that leaves the store unchanged; success iff every one of these checks passes; success is 201, appends one user, creates an organisation iff the role is ORGANIZATION, puts its id in the token only then, and touches no other table |
| AuthRegister.HandleKeepsInvariants | app/api/auth/register/route.ts:78-104 | registration keeps the store's constraints and the organisation-iff-ORGANIZATION link |
| AuthRegister.RegisterTwice | app/api/auth/register/route.ts:60-70 | a second registration with the same address is refused with 'User already exists' |
| AuthRegister.Post | app/api/auth/register/route.ts:15-135 | the route on the database performs exactly `Handle`'s step and keeps the database valid |
| AuthLogin.OrganizationOf | app/api/auth/login/route.ts:48-60 | an organisation id is given only to ORGANIZATION users and names an organisation they own |
| AuthLogin.Handle | app/api/auth/login/route.ts:18-68 | a missing e-mail or password gives 400; an unknown e-mail and a wrong password give the same 401 'Invalid credentials'; success iff some user has the e-mail and the password matches its hash; the user returned has no password field |
| AuthLogin.OrganizationUsersGetTheirOrganization | app/api/auth/login/route.ts:48-60 | where ownership follows the role, every ORGANIZATION user gets a token naming an organisation they own |
| AuthLogin.LoginFinds | app/api/auth/login/route.ts:25-45 | a user whose address and password check out is logged in as that user |
| AuthLogin.LoginAfterRegister | app/api/auth/login/route.ts:25-68 | a user who has just registered can log in, and an organisation user's token names the organisation created with them |
| AuthLogin.NewOwnerFound | app/api/auth/login/route.ts:48-52 | an organisation appended for a new user is the one found for that user |
| NgoRegister.Handle | app/api/ngo/register/route.ts:26-76 | missing name, e-mail, password or description gives 400 'Missing required fields'; a known e-mail gives 400 'Email already registered'; both leave the store unchanged; success creates one ORGANIZATION user and one organisation linked to it, with no status set, and answers without a token |
| NgoRegister.HandleKeepsInvariants | app/api/ngo/register/route.ts:49-71 | the registration keeps the store's constraints and the role link |
| NgoRegister.NoFormatChecks | app/api/ngo/register/route.ts:26-31 | an address without '@' and a one-letter password are accepted here but refused by the general route |
| NgoRegister.Post | app/api/ngo/register/route.ts:20-83 | the route on the database performs exactly `Handle`'s step |
| Campaigns.Get | app/api/campaigns/route.ts:7-52 | 401 without 'Bearer ', 404 without an organisation; success iff the caller resolves, and then it lists exactly the caller's organisation's campaigns, each as often as in the store, newest first |
| Campaigns.PostStep | app/api/campaigns/route.ts:56-116 | preamble refusals first, then 400 for a falsy title, description, targetAmount (0 included) or endDate; success iff the caller resolves and the body is complete; the campaign created takes organisation and user from the caller, never from the body, its amount raised is the schema default, and only the campaigns table grows |
| Campaigns.PostKeepsInvariants | app/api/campaigns/route.ts:95-105 | creation keeps the store's constraints |
| Campaigns.Post | app/api/campaigns/route.ts:56-116 | the route on the database performs exactly `PostStep` |
| Campaigns.PutAsWritten | app/api/campaigns/route.ts:1-120 | as written, PUT always answers 500 and changes nothing |
| Campaigns.DeleteAsWritten | app/api/campaigns/route.ts:1-156 | as written, DELETE always answers 500 and changes nothing |
| Campaigns.OwnerRenameRefusedAsWritten | app/api/campaigns/route.ts:118-150 | a concrete store in which the campaign's own creator, with a valid token, cannot rename it as written, while the corrected route allows it |
| Campaigns.Updated | app/api/campaigns/route.ts:133-141 | each supplied field (title, description, targetAmount, image, organizationId, a non-empty endDate) replaces the stored value and each absent one keeps it; id, owner, raised amount and creation time never change |
| Campaigns.PutStep | app/api/campaigns/route.ts:118-151 | verification failure, then 400 without id, then 404 for an unknown id, then 403 for a caller who is neither owner nor ADMIN, then 500 with the store's message for an unknown organizationId; success iff the token verifies, the id names a campaign, the caller is its owner or ADMIN and any organizationId given exists; success rewrites that campaign only |
| Campaigns.OnlyOwnerOrAdminUpdates | app/api/campaigns/route.ts:129-131 | a caller who neither created the campaign nor is ADMIN never changes the store, and gets 403 for an existing id |
| Campaigns.PutKeepsInvariants | app/api/campaigns/route.ts:133-144 | an update keeps the store's constraints |
| Campaigns.Put | app/api/campaigns/route.ts:118-152 | the route on the database performs exactly `PutStep` |
| Campaigns.DeleteStep | app/api/campaigns/route.ts:154-173 | the same refusals in the same order, then 500 with the store's message while donations refer to the campaign; success iff the token verifies, the id names a campaign, the caller is its owner or ADMIN and no donation refers to it; success removes exactly that campaign |
| Campaigns.OnlyOwnerOrAdminDeletes | app/api/campaigns/route.ts:165-167 | a caller who neither created the campaign nor is ADMIN never changes the store, and gets 403 for an existing id |
| Campaigns.DeleteKeepsInvariants | app/api/campaigns/route.ts:169-172 | a deletion keeps the store's constraints |
| Campaigns.Delete | app/api/campaigns/route.ts:154-173 | the route on the database performs exactly `DeleteStep` |
| OrganizationApi.CreateStep | app/api/organization/route.ts:17-74 | 401 without 'Bearer ', 400 without name and description, 400 for a user who already owns an organisation, 500 when the token's user does not exist (the foreign key); success iff none of these applies; the organisation created belongs to the token's user |
| OrganizationApi.CreateKeepsInvariants | app/api/organization/route.ts:42-63 | creation keeps the store's constraints and at most one organisation per user |
| OrganizationApi.CreateByOtherRoleBreaksRoleLink | app/api/organization/route.ts:17-63 | the route does not check the role: a non-ORGANIZATION user who creates one breaks the role link |
| OrganizationApi.Post | app/api/organization/route.ts:17-74 | the route on the database performs exactly `CreateStep` |
| OrganizationApi.Get | app/api/organization/route.ts:78-110 | preamble refusals, 404 without an organisation; success iff the caller resolves, and then the answer is the caller's first owned organisation |
| OrganizationApi.GetAfterCreate | app/api/organization/route.ts:56-103 | what POST creates is what GET then returns to the same caller |
| OrganizationApi.LocalVerify | app/api/organization/route.ts:6-12 | the route's own check takes the header's second word without testing the scheme |
| OrganizationApi.LocalVerifyAgrees | app/api/organization/route.ts:6-12 | when no accepted token is empty, it admits exactly what the shared gate admits, with the same claims |
| OrganizationApi.OtherSchemeAccepted | app/api/organization/route.ts:6-12 | a 'Basic' header passes the local check but not the Bearer preamble |
| OrganizationApi.Edited | app/api/organization/route.ts:137-145 | PUT replaces name and description, sets website only when given, and keeps id, owner, status, logo and creation time |
| OrganizationApi.UpdateStep | app/api/organization/route.ts:114-155 | a local-check failure is a 500; 400 without name and description; 404 without an organisation; success iff the token verifies, both fields are given and the caller owns an organisation; success rewrites only the caller's own organisation |
| OrganizationApi.UpdateKeepsInvariants | app/api/organization/route.ts:137-147 | PUT keeps the constraints, one organisation per user and the role link |
| OrganizationApi.GetAfterUpdate | app/api/organization/route.ts:137-147 | after a successful PUT, GET returns the edited organisation |
| OrganizationApi.Put | app/api/organization/route.ts:114-155 | the route on the database performs exactly `UpdateStep` |
| VolunteerOpportunities.ApplicationsOf | app/api/organization/volunteer-opportunities/route.ts:40-50 | the summarised applications are exactly those addressed to the opportunity |
| VolunteerOpportunities.WithApplications | app/api/organization/volunteer-opportunities/route.ts:35-53 | each listed opportunity carries its own applications |
| VolunteerOpportunities.Listing | app/api/organization/volunteer-opportunities/route.ts:35-53 | exactly the organisation's opportunities, each as often as in the store, newest first, each with its applications |
| VolunteerOpportunities.Get | app/api/organization/volunteer-opportunities/route.ts:6-62 | 401 without 'Bearer ', 404 without an organisation; success iff the caller resolves, and then the answer is the caller's listing |
| VolunteerOpportunities.AsList | app/api/organization/volunteer-opportunities/route.ts:112 | an array is stored as it is and a single value is wrapped in a one-element array |
| VolunteerOpportunities.PostStep | app/api/organization/volunteer-opportunities/route.ts:66-124 | preamble refusals, then 400 when title, description, date, location or requiredSkills is falsy; success iff neither; the opportunity belongs to the caller's organisation |
| VolunteerOpportunities.EmptySkillArrayAccepted | app/api/organization/volunteer-opportunities/route.ts:98-112 | an empty skills array is truthy, passes the check and is stored empty |
| VolunteerOpportunities.PostKeepsInvariants | app/api/organization/volunteer-opportunities/route.ts:106-115 | creation keeps the store's constraints |
| VolunteerOpportunities.ListedAfterPost | app/api/organization/volunteer-opportunities/route.ts:35-115 | a new opportunity appears in the caller's next listing with no applications |
| VolunteerOpportunities.NoApplicationsYet | app/api/organization/volunteer-opportunities/route.ts:40-50 | no stored application refers to a fresh opportunity |
| VolunteerOpportunities.Post | app/api/organization/volunteer-opportunities/route.ts:66-124 | the route on the database performs exactly `PostStep` |
| VolunteerApplications.SubmitStep | app/api/volunteer/applications/route.ts:9-70 | 400 for a missing field; a sample id answers a synthetic pending application with no store access; 404 for an unknown opportunity; 400 for one not OPEN; an application is stored iff the fields are present, the ids are not samples and the opportunity is OPEN, and then exactly one pending application is appended |
| VolunteerApplications.AlwaysPending | app/api/volunteer/applications/route.ts:17-61 | every application answered, stored or synthetic, is 'pending' |
| VolunteerApplications.OrganizationNotChecked | app/api/volunteer/applications/route.ts:33-59 | the body's organisation is stored even when it is not the opportunity's |
| VolunteerApplications.SubmitKeepsInvariants | app/api/volunteer/applications/route.ts:53-61 | submission keeps the store's constraints |
| VolunteerApplications.Submit | app/api/volunteer/applications/route.ts:7-70 | the route on the database performs exactly `SubmitStep` |
| Donations.Verify | app/api/donations/route.ts:8-19 | the route's own gate: 'No token provided' without a header, the library's message for a bad token, 'Forbidden' for a role not listed |
| Donations.SameAsShared | app/api/donations/route.ts:8-19 | it admits exactly the callers the shared gate admits, with the same claims, and maps its refusals to the same messages |
| Donations.PostStep | app/api/donations/route.ts:21-41 | every gate failure is a 500; a falsy amount (0 included) or campaign gives 400; the donation's donor is the token's user, never the body's; success is 201 |
| Donations.VolunteerRefused | app/api/donations/route.ts:23-39 | a VOLUNTEER's donation is refused with 500 'Forbidden' and nothing is stored |
| Donations.PostKeepsInvariants | app/api/donations/route.ts:28-35 | creation keeps the store's constraints |
| Donations.Post | app/api/donations/route.ts:21-41 | the route on the database performs exactly `PostStep` |
| Donations.WithRelations | app/api/donations/route.ts:46-51 | each listed donation carries its own donor and campaign |
| Donations.Get | app/api/donations/route.ts:43-56 | only ADMIN and ORGANIZATION may list, and every admitted caller gets 200; the listing is every donation in the store, unscoped |
| Donations.RelationsPresent | app/api/donations/route.ts:46-51 | in a well-formed store every listed donation has its donor and campaign |
| Donations.DonorMayGiveButNotList | app/api/donations/route.ts:23-45 | a DONOR may create a donation but not list them |
| AdminApproveNgo.VerifyAdmin | app/api/admin/approve-ngo/route.ts:8-17 | 'No token provided' without a header, 'Forbidden' for a non-ADMIN |
| AdminApproveNgo.SameAsShared | app/api/admin/approve-ngo/route.ts:8-17 | it admits exactly the callers of the shared `verifyAdmin` |
| AdminApproveNgo.ApproveStep | app/api/admin/approve-ngo/route.ts:21-36 | the admin check precedes body validation; gate failures are 500; no userId gives 400; success iff an admin names an existing user, and then that user's role becomes ORGANIZATION |
| AdminApproveNgo.OnlyRoleChanges | app/api/admin/approve-ngo/route.ts:28-31 | only the role of the named user changes; every other field and table is kept |
| AdminApproveNgo.ApproveKeepsInvariants | app/api/admin/approve-ngo/route.ts:28-31 | the update keeps the store's constraints |
| AdminApproveNgo.PromotionWithoutOrganization | app/api/admin/approve-ngo/route.ts:28-31 | promoting a user who owns no organisation leaves an ORGANIZATION user without one |
| AdminApproveNgo.Approve | app/api/admin/approve-ngo/route.ts:21-36 | the route on the database performs exactly `ApproveStep` |
| AdminNgoStatus.SetStatus | app/api/admin/ngos/approve/route.ts:4-19 | no id gives 400 'NGO id is required'; an unknown id gives 500; success iff the id is known, and it writes only that organisation's status; there is no authentication |
| AdminNgoStatus.Approve | app/api/admin/ngos/approve/route.ts:10-13 | an approval leaves status APPROVED |
| AdminNgoStatus.Reject | app/api/admin/ngos/reject/route.ts:10-13 | a rejection leaves status REJECTED |
| AdminNgoStatus.OnlyStatusChanges | app/api/admin/ngos/approve/route.ts:10-13 | only the named organisation's status changes |
| AdminNgoStatus.Idempotent | app/api/admin/ngos/reject/route.ts:10-13 | setting a status twice equals setting it once |
| AdminNgoStatus.LastDecisionWins | app/api/admin/ngos/approve/route.ts:10-13 | there is no guard on the prior status: approving after a rejection succeeds and gives the same store as approving directly |
| AdminNgoStatus.SetStatusKeepsInvariants | app/api/admin/ngos/approve/route.ts:10-13 | status changes keep the constraints and the role link |
| AdminNgoStatus.Decide | app/api/admin/ngos/reject/route.ts:4-19 | both routes on the database perform exactly `SetStatus` |
| OrganizationVolunteers.Addressed | app/api/organization/volunteers/route.ts:14-25 | exactly the applications addressed to the token's organisation, newest first; each kept entry appears as often as in the input |
| OrganizationVolunteers.Get | app/api/organization/volunteers/route.ts:6-32 | any failure of the ORGANIZATION/ADMIN gate is 401; success is the caller's applications |
| OrganizationVolunteers.Restatused | app/api/organization/volunteers/route.ts:50-52 | the update writes the status field only, and nothing when no status is given |
| OrganizationVolunteers.PatchStep | app/api/organization/volunteers/route.ts:34-60 | gate failures are 401; success iff the token verifies and the named application exists and is addressed to the caller's organisation; the status value is not validated |
| OrganizationVolunteers.OnlyOwnStatusChanges | app/api/organization/volunteers/route.ts:45-53 | other organisations' applications never change, and of the caller's only the status of the named one |
| OrganizationVolunteers.PatchKeepsInvariants | app/api/organization/volunteers/route.ts:45-53 | PATCH keeps the store's constraints |
| OrganizationVolunteers.ListedAfterPatch | app/api/organization/volunteers/route.ts:14-53 | after PATCH the caller's listing shows the new status |
| OrganizationVolunteers.Patch | app/api/organization/volunteers/route.ts:34-60 | the route on the database performs exactly `PatchStep` |
| NgoListings.CampaignsOf | app/api/ngos/route.ts:8-12 | exactly the organisation's campaigns |
| NgoListings.ImpactOf | app/api/ngos/route.ts:35-39 | projects is the campaign count; with no campaigns the figures are 0, 0 and 0; a zero target makes beneficiaries and the rate null |
| NgoListings.RateIsRoundedMeanOfBeneficiaries | app/api/ngos/route.ts:35-38 | the success rate is the beneficiaries figure divided by the campaign count, rounded |
| NgoListings.ImpactOfOne | app/api/ngos/route.ts:35-39 | for one campaign with a non-zero target, beneficiaries is its currentAmount / targetAmount × 100 and the rate that value rounded; a zero target gives null figures |
| NgoListings.ImpactOfAppend | app/api/ngos/route.ts:35 | beneficiaries adds up over concatenated campaign lists, so it is the sum of the per-campaign percentages; the figure is defined for the whole iff for both parts |
| NgoListings.AllTargetsMet | app/api/ngos/route.ts:35-39 | when every campaign exactly met its target, the rate is 100 and beneficiaries is 100 per campaign |
| NgoListings.CardOf | app/api/ngos/route.ts:27-41 | the card copies id, name, description, website and logo from the organisation, carries the given e-mail and the organisation's impact figures |
| NgoListings.Cards | app/api/ngos/route.ts:27-33 | one card per organisation, in order, with the owner's e-mail; absent when an owner is missing |
| NgoListings.OwnersPresent | app/api/ngos/route.ts:27-33 | in a well-formed store every owner exists |
| NgoListings.ListAll | app/api/ngos/route.ts:5-47 | one card per organisation in store order, carrying its id, name, description, website, logo, owner's e-mail and impact figures, or 500 'Error fetching NGOs' |
| NgoListings.ListPending | app/api/admin/ngos/route.ts:5-50 | only PENDING organisations, in store order, each with the same card fields, its status and its creation time |
| NgoListings.ListingsSucceed | app/api/admin/ngos/route.ts:27-35 | in a well-formed store neither listing fails |
| NgoListings.PendingListed | app/api/admin/ngos/route.ts:8 | every pending organisation is on the admin's list |
| NgoListings.RegisteredOrganizationIsPending | app/api/auth/register/route.ts:98 | an organisation registered through the register route is listed as pending |
| NgoListings.ApprovedLeavesPending | app/api/admin/ngos/approve/route.ts:10-13 | once approved, an organisation is no longer listed as pending |
| OpportunityForm.Added | app/organization/volunteer-opportunities/create/page.tsx:63-71 | the list grows by one iff the trimmed input is non-empty and not already present (exact match), at the end, keeping the rest; duplicate-free trimmed entries stay so |
| OpportunityForm.Removed | app/organization/volunteer-opportunities/create/page.tsx:73-78 | exactly the entries equal to the argument go, in order; an absent skill is a no-op; the list stays duplicate-free |
| OpportunityForm.AddThenRemove | app/organization/volunteer-opportunities/create/page.tsx:63-78 | adding a fresh skill and removing it restores the list |
| OpportunityForm.Form.AddSkill | app/organization/volunteer-opportunities/create/page.tsx:63-71 | the list becomes `Added`; the box is cleared only when a skill was added; the other fields are kept; the skill invariant is kept |
| OpportunityForm.Form.RemoveSkill | app/organization/volunteer-opportunities/create/page.tsx:73-78 | the list becomes `Removed` and nothing else changes |
| OpportunityForm.Form.Change | app/organization/volunteer-opportunities/create/page.tsx:80-86 | only the named field changes; the skills are kept |
| OpportunityForm.Form.Type | app/organization/volunteer-opportunities/create/page.tsx:190 | typing changes only the skill box |
| NgoApproval.WithStatus | components/admin/ngo-approval.tsx:90-91 | the entries with the id get the status; the others and the length are unchanged |
| NgoApproval.DecidedOnce | components/admin/ngo-approval.tsx:160-246 | after a decision nothing is offered for that id, and other ids' offers are unchanged, so an NGO leaves Pending at most once |
| NgoApproval.Panel.Approve | components/admin/ngo-approval.tsx:90-96 | the list becomes `WithStatus(…, "Approved")`; the dialog state is kept |
| NgoApproval.Panel.OpenRejection | components/admin/ngo-approval.tsx:98-102 | the NGO is selected, the reason cleared and the dialog opened |
| NgoApproval.Panel.SetReason | components/admin/ngo-approval.tsx:297 | typing changes only the reason |
| NgoApproval.Panel.Reject | components/admin/ngo-approval.tsx:104-114 | nothing without a selection; otherwise the selected id is rejected and the dialog closes; the reason is stored nowhere |
| AdminDashboard.Filtered | app/admin/dashboard/page.tsx:59-63 | an NGO is kept iff the lower-cased, untrimmed query occurs in its lower-cased name, e-mail or description; order is kept; each kept entry appears as often as in the input |
| AdminDashboard.EmptyQueryKeepsAll | app/admin/dashboard/page.tsx:59-63 | an empty query keeps every NGO |
| AdminDashboard.WithStatus | app/admin/dashboard/page.tsx:52-55 | the matching ids get the status; others and the length are unchanged |
| AdminDashboard.DecisionKeepsSearch | app/admin/dashboard/page.tsx:52-151 | a decision hides the decided entries' actions and does not change how many NGOs the search shows |
| AdminDashboard.Page.SetStatus | app/admin/dashboard/page.tsx:52-55 | the list becomes `WithStatus`; the query is kept |
| AdminDashboard.Page.Search | app/admin/dashboard/page.tsx:126 | the query becomes the typed text; the list is kept |
| AdminDashboard.Page.Shown | app/admin/dashboard/page.tsx:59 | what is shown is an ordered sub-list of the NGOs matching the current query |
| NgoVolunteersPage.Loaded | app/ngo/volunteers/page.tsx:42-48 | a failed fetch or a non-array body gives an empty list |
| NgoVolunteersPage.WithStatus | app/ngo/volunteers/page.tsx:74-76 | only the application with the id changes; the length is kept |
| NgoVolunteersPage.Page.Load | app/ngo/volunteers/page.tsx:27-50 | the list becomes `Loaded` and loading is cleared in every case |
| NgoVolunteersPage.Page.UpdateStatus | app/ngo/volunteers/page.tsx:55-80 | the list changes only after a successful PATCH |
| NgoDashboard.Appended | app/ngo/dashboard/page.tsx:52-62 | exactly one campaign is added at the end with the four form fields, progress 0 and no validation; existing entries are unchanged |
| NgoDashboard.NewThisMonth | app/ngo/dashboard/page.tsx:109 | the figure is negative exactly for an empty list, which shows "+-1 new this month" |
| NgoDashboard.Page.Edit | app/ngo/dashboard/page.tsx:250-278 | the form holds the edited draft; the list and the dialog are kept |
| NgoDashboard.Page.CreateCampaign | app/ngo/dashboard/page.tsx:51-71 | the list becomes `Appended`, the form is reset and the dialog closed |
| CampaignsPage.Filtered | app/campaigns/page.tsx:84-94 | a blank query keeps all; otherwise the trimmed lower-cased query is searched in the lower-cased title, description, ngo and category; order is kept; each kept entry appears as often as in the input |
| CampaignsPage.Validate | app/campaigns/page.tsx:107-134 | passes iff the amount is non-empty, a number and positive and the selected method's field is non-empty; the other methods' fields are ignored; the messages are the page's |
| CampaignsPage.Page.Donate | app/campaigns/page.tsx:102-105 | selects the campaign and opens the dialog |
| CampaignsPage.Page.ProcessDonation | app/campaigns/page.tsx:136-151 | returns `Validate`'s verdict; resets the amount and the three payment fields, closes the dialog and clears the selection only when it passes |
| VolunteerPage.Filtered | app/volunteer/page.tsx:76-81 | an opportunity is kept iff the lower-cased, untrimmed query occurs in its lower-cased title, organisation, description or category; order is kept; each kept entry appears as often as in the input |
| VolunteerPage.EmptyQueryKeepsAll | app/volunteer/page.tsx:76-81 | an empty query keeps all opportunities in order |
| VolunteerPage.Changed | app/volunteer/page.tsx:102-108 | only the named field of the form changes |
| VolunteerPage.Page.Apply | app/volunteer/page.tsx:83-86 | selects the opportunity and opens the dialog |
| VolunteerPage.Page.Change | app/volunteer/page.tsx:102-108 | the form becomes `Changed` |
| VolunteerPage.Page.Submit | app/volunteer/page.tsx:88-100 | all five fields reset and the dialog closes; nothing is sent |
| NgosPage.Filtered | app/ngos/page.tsx:54-57 | an NGO is kept iff the query occurs in its name or description, ignoring case; order is kept; each kept entry appears as often as in the input |
| NgosPage.EmptyQueryKeepsAll | app/ngos/page.tsx:54-57 | an empty query keeps every NGO |
| NgosPage.EmailNotSearched | app/ngos/page.tsx:54-57 | the e-mail plays no part in the search |
| NgosPage.Page.Load | app/ngos/page.tsx:34-50 | a failed fetch leaves the list as it was (empty on mount) and loading is cleared either way |
| NgosPage.Page.Shown | app/ngos/page.tsx:54 | what is shown is an ordered sub-list of the NGOs matching the query |
| DonorDonations.Filtered | app/donor/donations/page.tsx:62-64 | a donation is kept iff the filter occurs in its campaign, ignoring case; other fields are not searched; each kept entry appears as often as in the input |
| DonorDonations.ClearedFilterKeepsAll | app/donor/donations/page.tsx:105 | the cleared filter restores the full list |
| DonorDonations.Lines | app/donor/donations/page.tsx:67-70 | the header row followed by one comma-joined row per donation, in order |
| DonorDonations.OneLinePerDonation | app/donor/donations/page.tsx:67-70 | splitting the export on newlines gives back exactly the header and one row per donation, so there is no trailing newline |
| DonorDonations.RowRoundTrip | app/donor/donations/page.tsx:70 | a row whose cells contain no comma splits back into its cells |
| DonorDonations.CommaInAmountSplitsRow | app/donor/donations/page.tsx:19-70 | an amount with a comma splits into two cells, so the export does not round-trip (section 2 of RFC 4180 would quote it) |
| DonorDonations.ThousandsSeparatorBreaksRow | app/donor/donations/page.tsx:19-70 | the amount '1,000 FCFA' yields six cells instead of five |
| DonorDonations.Dashed | app/donor/donations/page.tsx:142 | whitespace runs become one '-': the result has no white space, is no longer than the input and leaves space-free text unchanged |
| DonorDonations.RunBecomesOneDash | app/donor/donations/page.tsx:142 | every maximal white-space run, of any length, becomes exactly one '-', and the text on each side is dashed independently |
| DonorDonations.DashedSplit | app/donor/donations/page.tsx:142 | text that does not end in white space is dashed independently of what follows it |
| DonorDonations.ReceiptName | app/donor/donations/page.tsx:142 | the name starts with 'receipt-' and has no white space when the date has none |
| DonorDonations.SpaceRunCollapses | app/donor/donations/page.tsx:142 | a run of two spaces becomes a single dash |
| DonorDashboard.TotalIsSum | app/donor/dashboard/page.tsx:89 | the left-to-right reduce equals the sum of the amounts, which is 0 for no donations |
| DonorDashboard.TotalNonNegative | app/donor/dashboard/page.tsx:89 | with non-negative amounts the total is non-negative |
| DonorDashboard.CampaignsSupported | app/donor/dashboard/page.tsx:103 | the number of distinct campaign titles among the donations, never more than the donations and at least one when there are any |
| DonorDashboard.CampaignsSupportedAppend | app/donor/dashboard/page.tsx:103 | one more donation raises the figure by one exactly when no earlier donation has its campaign title |
| DonorDashboard.Mount | app/donor/dashboard/page.tsx:27-190 | without a token (none stored, or the empty string, which `!token` also rejects) the page goes to /login and makes no request; otherwise loading is cleared after the fetch and the list or the error is set |
| VolunteerDashboard.Upcoming | app/volunteer/dashboard/page.tsx:90 | the number of opportunities whose status is exactly 'upcoming'; 0 iff there is none |
| VolunteerDashboard.UpcomingAppend | app/volunteer/dashboard/page.tsx:90 | one more opportunity raises the count by one exactly when its status is 'upcoming' |
| VolunteerDashboard.UpcomingIsStatusCount | app/volunteer/dashboard/page.tsx:90 | the count is the number of times 'upcoming' occurs among the statuses |
| VolunteerDashboard.Organizations | app/volunteer/dashboard/page.tsx:101 | the number of distinct organisation names among the opportunities, never more than the opportunities and at least one when there are any |
| VolunteerDashboard.OrganizationsAppend | app/volunteer/dashboard/page.tsx:101 | one more opportunity raises the count by one exactly when its organisation name has not been seen |
| VolunteerDashboard.Listed | app/volunteer/dashboard/page.tsx:141 | the first five opportunities at most, in fetched order |
| VolunteerDashboard.Mount | app/volunteer/dashboard/page.tsx:25-60 | without a token (none stored, or the empty string) the page goes to /login and makes no request; loading is cleared in every case; a failure sets the error |
| OrganizationDashboard.Active | app/organization/dashboard/page.tsx:317 | exactly the ACTIVE campaigns, order kept; each kept entry appears as often as in the input |
| OrganizationDashboard.EmptyStateIffNoneActive | app/organization/dashboard/page.tsx:344 | the empty state shows iff no campaign is ACTIVE |
| OrganizationDashboard.ActionStatus | app/organization/dashboard/page.tsx:501 | 'approve' sends 'approved' and every other action 'rejected' |
| OrganizationDashboard.Mount | app/organization/dashboard/page.tsx:81-163 | no token or an empty one goes to /login before any fetch; a 404 for the organisation goes to /organization/setup; another failure sets the error; once the organisation is loaded, analytics, the first five donations and the first five applications are taken from their ok responses exactly when no earlier fetch threw, and otherwise keep their defaults |
| OrganizationDashboard.Secondary | app/organization/dashboard/page.tsx:115-154 | campaigns, analytics, the first five donations and the first five applications are each set from an ok response exactly when no earlier fetch threw, and otherwise keep their defaults; a thrown fetch stops the sequence with the load error |
| NgoCampaignsPage.Progress | app/ngo/campaigns/page.tsx:66 | 0 for a missing or zero target; otherwise the nearest integer, halves up, to the percentage raised |
| NgoCampaignsPage.TargetReachedIsHundred | app/ngo/campaigns/page.tsx:66 | raising exactly the target shows 100 |
| NgoCampaignsPage.ProgressNotCapped | app/ngo/campaigns/page.tsx:66 | raising k times the target shows 100·k, so there is no cap |
| NgoCampaignsPage.StatusLabel | app/ngo/campaigns/page.tsx:50 | never empty and free of capitals: the status lower-cased, or 'active' when it is missing or empty |
| NgoCampaignsPage.AfterFetch | app/ngo/campaigns/page.tsx:15-38 | loading is cleared after the fetch; a failure sets 'Failed to load campaigns' |
| NgoCampaignsPage.Render | app/ngo/campaigns/page.tsx:39-72 | loading first, then the error, then 'No campaigns found.' for an empty list, then one card per campaign with its label and progress |
| NgoCampaignsPage.Screens | app/ngo/campaigns/page.tsx:39-41 | the spinner before the fetch, the error after a failure, the empty message for no campaigns |
| CampaignCard.Progress | components/campaign-card.tsx:33 | the nearest integer to the percentage raised for a non-zero goal; a zero goal gives Infinity, -Infinity or NaN |
| CampaignCard.ProgressEnds | components/campaign-card.tsx:33 | nothing raised shows 0 and a reached goal shows 100 |
| CampaignCard.ProgressNotCapped | components/campaign-card.tsx:33 | raising k times the goal shows 100·k |
| CampaignCard.Dashes | components/campaign-card.tsx:60 | each U+0020 becomes '-', every other character is kept |
| CampaignCard.Encode | components/campaign-card.tsx:60 | the encoding uses only unreserved characters and '%'; text made only of unreserved characters is unchanged |
| CampaignCard.Utf8 | components/campaign-card.tsx:60 | one byte below 0x80; two bytes for 0x80-0x7FF with lead 0xC2-0xDF; three for 0x800-0xFFFF with lead 0xE0-0xEF; four otherwise with lead 0xF0-0xF4; continuation bytes 0x80-0xBF |
| CampaignCard.Utf8RoundTrip | components/campaign-card.tsx:60 | decoding the UTF-8 bytes gives the code point back |
| CampaignCard.Percent | components/campaign-card.tsx:60 | '%' then two hexadecimal digits whose value is the byte |
| CampaignCard.EncodeAppend | components/campaign-card.tsx:60 | the encoding of a concatenation is the concatenation of the encodings |
| CampaignCard.EncodeChar | components/campaign-card.tsx:60 | an unreserved character is kept; any other becomes the percent-escapes of its UTF-8 bytes |
| CampaignCard.Slug | components/campaign-card.tsx:60 | the slug consists of unreserved characters and '%' only |
| CampaignCard.SlugAppend | components/campaign-card.tsx:60 | the slug of a title is the slugs of its characters, one after another |
| CampaignCard.SlugChar | components/campaign-card.tsx:60 | a space becomes '-', an unreserved character is lower-cased, any other character becomes the percent-escapes of its UTF-8 bytes |
| CampaignCard.SlugHasNoSpace | components/campaign-card.tsx:60 | no slug contains a space or any other white space |
| CampaignCard.PlainTitleSlug | components/campaign-card.tsx:60 | a title of letters, digits, spaces and unreserved marks gives the lower-cased title with dashes for spaces |
| CampaignCard.Card.ToggleSaved | components/campaign-card.tsx:32-67 | each click flips the saved flag, so two clicks restore it |
| DonationModal.Step2Fields | components/donation-modal.tsx:122-158 | the card form iff the method is card, otherwise the phone box with the Orange Money hint for orange and the Mobile Money hint for the rest |
| DonationModal.ConfirmationNote | components/donation-modal.tsx:186-188 | the e-mail receipt note iff the method is card, the phone note otherwise |
| DonationModal.PhoneIffNoEmail | components/donation-modal.tsx:122-188 | the phone box is asked for exactly when no e-mail receipt is promised |
| DonationModal.Modal.constructor | components/donation-modal.tsx:19-22 | the flow starts at step 1 with card selected and empty boxes |
| DonationModal.Modal.SetAmount | components/donation-modal.tsx:44 | the amount box takes the typed text at step 1; step, method and phone are kept |
| DonationModal.Modal.SetPhone | components/donation-modal.tsx:150 | the phone box takes the typed text at step 2; step, amount and method are kept |
| DonationModal.Modal.Continue | components/donation-modal.tsx:115 | step 1 goes to 2 whatever the amount; nothing else changes |
| DonationModal.Modal.Donate | components/donation-modal.tsx:24-27 | step 2 goes to 3; no payment is made |
| DonationModal.Modal.SelectMethod | components/donation-modal.tsx:52-55 | only the method changes, and the step is kept |
| RegisterPage.Validation | app/register/page.tsx:33-53 | passes iff name, e-mail and password are non-empty and the password has at least 6 UTF-16 units; presence is reported first |
| RegisterPage.RequestFor | app/register/page.tsx:58-63 | the body sends the form's fields and the radio value upper-cased, letter by letter |
| RegisterPage.BodyOf | app/register/page.tsx:58-63 | the register route receives the page's name, e-mail, password and role, and no description or website |
| RegisterPage.RadioRolesSent | app/register/page.tsx:62-188 | the three radio values are sent as DONOR, ORGANIZATION and ADMIN |
| RegisterPage.DashboardPath | app/register/page.tsx:78-79 | organization and admin have their dashboards; every other value goes to the donor dashboard |
| RegisterPage.AgreesWithLogin | app/register/page.tsx:78-79 | for each radio value, signing up and logging in lead to the same dashboard |
| RegisterPage.SentRequestAccepted | app/register/page.tsx:33-63 | a request the page sends, for a well-formed new address, passes every check of the register route |
| RegisterPage.RequestError | app/register/page.tsx:68-92 | no error iff a token came back; a reply without a token gives 'No token received from server'; a rejection from the client library, not being an Error, always gives 'Registration failed' |
| RegisterPage.Page.HandleRegister | app/register/page.tsx:27-96 | an invalid form sets the validation error and sends nothing; otherwise the request is sent, the error becomes `RequestError`, and a token is stored with a redirect to `DashboardPath`; loading is clear on every exit |
| RegisterPage.Page.constructor | app/register/page.tsx:17-22 | the form starts empty with the donor radio selected, not loading and with no error |
| LoginPage.RouteFor | app/login/page.tsx:48-63 | ORGANIZATION, DONOR, VOLUNTEER and ADMIN go to their dashboards, matched exactly; every other role goes to /dashboard |
| LoginPage.Submit | app/login/page.tsx:23-67 | navigation iff the reply is ok, with no error; a refusal shows the body's message or 'Login failed'; a thrown error shows its message |
| LoginPage.FromRoute | app/login/page.tsx:36-40 | a refusal from the login route carries no `message` field |
| LoginPage.RouteRepliesAsShown | app/login/page.tsx:36-63 | against the login route every refusal reads 'Login failed' and a success goes to the user's role dashboard |
| LoginPage.LowerCaseRoleGoesToGenericDashboard | app/login/page.tsx:48-62 | the match is case-sensitive: 'donor' goes to /dashboard |
| DashboardPage.Redirect | app/dashboard/page.tsx:10-36 | no token goes to /login whatever the role; the lower-cased role picks its dashboard; a missing or unknown role goes to /login |
| DashboardPage.AgreesWithLogin | app/dashboard/page.tsx:20-32 | for the four issued roles this page and the login page agree |
| DashboardPage.UnknownRoleLoops | app/dashboard/page.tsx:33-34 | a role neither knows goes from login to /dashboard and from there back to /login |
| OrganizationLayout.Check | app/organization/layout.tsx:16-43 | passes iff a token is stored, the verify reply is ok and the role is ORGANIZATION or ADMIN; each failure has its message: 'No token found', 'Invalid token', 'Unauthorized role', or the message of the error a failed request throws |
| OrganizationLayout.Layout.Render | app/organization/layout.tsx:55-71 | the children show iff loading is over and no error is set |
| OrganizationLayout.Layout.constructor | app/organization/layout.tsx:12-18 | the layout starts loading with no error, holding the stored token, before any redirect |
| OrganizationLayout.Layout.VerifyAuth | app/organization/layout.tsx:15-53 | success only clears loading; any failure removes the token, sets the error and goes to /login while loading stays set |
| OrganizationLayout.Layout.Logout | app/organization/layout.tsx:90-94 | logout removes the token and goes to /login |
| OrganizationLayout.MountAndVerify | app/organization/layout.tsx:43-61 | after mounting, the children show iff the check passed; on failure only the loading screen shows, never the error |

## Left out

- The ORM is a set of sequences with the constraints stated in `Store`. The transaction in the registration routes is one atomic step. Schema defaults are inputs (`defaultStatus` of an opportunity, `defaultAmount` of a campaign) or absent, because the schema is not part of this model. A store error is a message parameter (`thrown`).
- bcrypt and jsonwebtoken are outside the model. The hash is an input, `compare` is a function parameter, and verification is a map of accepted tokens. Token expiry, the secret check in lib/jwt.ts and signing are not modelled.
- Network, storage and UI side effects are not performed: `fetch`, axios, `localStorage`, `router.push`, toasts, console output and the Blob download. Fetch outcomes are inputs. The stored token and the route are fields or results.
- Numbers are exact reals, so floating-point rounding of divisions and sums is not modelled. `toLocaleString`, `toFixed` and other display formatting are left out. `Number()` parsing on the campaigns page is an input.
- Lower- and upper-casing map ASCII letters only. `\s` and `trim` use the ECMAScript white-space set.
- OrganizationVolunteers.Get: the `include` of each application's user and campaign records is not modelled; applications are stored without those relations, so what the route then answers (null relations, the applicant's whole user record with its password hash, or a 500) depends on the database schema, which is not part of this model. Tokens issued by login and register for non-organisation users carry a null organisationId. The model treats that filter as matching no application, because every modelled application names an organisation, so such callers get 200 with an empty list; under a schema whose column may be null they would get the applications that name none.
- CampaignCard.Encode: lone surrogates cannot occur in a Dafny string, so the URIError that `encodeURIComponent` throws for them is not modelled.
- Dates are opaque strings or integers (`now`). Clocks are parameters.
- The donation modal's state persists while it is mounted. Closing the dialog is the parent's callback and is not modelled.
- LoginPage.Submit: the auth context's `login(token)` and the stored user name are not modelled.
- The thin routes (events, settings, reports, my-donations, the public opportunities fallback, verify, test-jwt) and the static pages are not modelled. Their logic is the token gate already modelled in `Middleware`, or fixed text.

## Findings

| source | as written | input that shows it | evidently intended | confidence | as-written member | corrected member |
|---|---|---|---|---|---|---|
| app/api/campaigns/route.ts:1-156 | PUT and DELETE call `verifyToken`, which the file neither defines nor imports. Every call throws, the `catch` answers 500, and no campaign can ever be updated or deleted. | the campaign's creator sends PUT with a valid 'Bearer ' token and id "c2" in the sample store: the answer is 500 and the store is unchanged | verify the token with the shared gate, then 400 without id, 404 for an unknown id, and 403 for a caller who is neither owner nor ADMIN; a verified owner or ADMIN naming an existing campaign succeeds | high (not executed) | Campaigns.PutAsWritten, Campaigns.DeleteAsWritten, Campaigns.OwnerRenameRefusedAsWritten | Campaigns.PutStep, Campaigns.DeleteStep, Campaigns.OnlyOwnerOrAdminUpdates, Campaigns.OnlyOwnerOrAdminDeletes |
